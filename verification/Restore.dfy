/**
 Installing a restored database and recovering an interrupted installation.
 Each procedure appears twice: as the method that walks the branches and early
 exits of the program on an open directory, and as the list of directory
 operations it performs when no system call fails. The methods are proved to
 perform exactly a prefix of their list; RestoreSafety reasons about the lists.
 */
module Restore {
  import opened Common
  import opened DataDirectory

  datatype Outcome = Done | Refused | Fault

  /** The operations to perform, and whether the procedure then reports success. */
  datatype Plan = Plan(ops: seq<Op>, ok: bool)

  function Before(op: Op, p: Plan): Plan { Plan([op] + p.ops, p.ok) }

  function PlanAfter(ops: seq<Op>, p: Plan): Plan { Plan(ops + p.ops, p.ok) }

  const STOP := Plan([], false)

  // ----- recovery -----

  /** removeRestoreValidationName: the exact restored object is unlinked, anything else is left alone. */
  predicate DropsValidation(d: Dir, tx: Transaction, links: nat) {
    EntryMatches(d, Validation, tx.restored.id, links)
  }

  function DropValidation(d: Dir, tx: Transaction, links: nat): seq<Op> {
    if DropsValidation(d, tx, links) then [Unbind(Validation)] else []
  }

  function Without(d: Dir, ops: seq<Op>): Dir
    requires |ops| <= 1
  {
    if ops == [] then d else Effect(ops[0], d)
  }

  function ClearMarker(d: Dir, tx: Transaction): Plan {
    if Removable(d, Marker, tx.marker) then Plan([Unbind(Marker), SyncDir], true) else STOP
  }

  /** recoverRestoreTransaction on the directory `d`. */
  function RecoveryPlan(d: Dir, tx: Transaction): Plan {
    if !EntryMatches(d, Marker, tx.marker, 1) then STOP
    else if (Live in d && !d[Live].private) || (Old in d && !d[Old].private) then STOP
    else if Live in d then
      if FileMatches(d, d[Live], tx.restored, {1, 2}) then KeepRestored(d, tx)
      else if tx.original.Some? && FileMatches(d, d[Live], tx.original.value, {1, 2}) then KeepOriginal(d, tx)
      else STOP
    else if tx.original.None? then
      if Old in d then STOP
      else
        var drop := DropValidation(d, tx, 1);
        PlanAfter(drop, ClearMarker(Without(d, drop), tx))
    else if Old !in d || !ValidDatabase(d, d[Old], tx.original.value, {1}) then STOP
    else PromoteOld(d, tx)
  }

  function KeepRestored(d: Dir, tx: Transaction): Plan
    requires Live in d
  {
    var live := d[Live];
    if !ValidDatabase(d, live, tx.restored, {1, 2}) || !live.provenance then STOP
    else Before(SyncDir, CleanRestored(d, tx, live))
  }

  function CleanRestored(d: Dir, tx: Transaction, live: Inode): Plan {
    if Links(d, live) == 2 then
      var drop := DropValidation(d, tx, 2);
      PlanAfter(drop, RetireOld(Without(d, drop), tx, live))
    else if Validation in d then STOP
    else RetireOld(d, tx, live)
  }

  function RetireOld(d: Dir, tx: Transaction, live: Inode): Plan {
    if Old !in d then PublishRestored(d, tx, live)
    else if tx.original.None? || !ValidDatabase(d, d[Old], tx.original.value, {1}) then STOP
    else Before(Unbind(Old), PublishRestored(d - {Old}, tx, live))
  }

  function PublishRestored(d: Dir, tx: Transaction, live: Inode): Plan {
    if !ValidDatabase(d, live, tx.restored, {1}) then STOP
    else Before(SyncDir, ClearMarker(d, tx))
  }

  function KeepOriginal(d: Dir, tx: Transaction): Plan
    requires Live in d && tx.original.Some?
  {
    var live, original := d[Live], tx.original.value;
    if Old in d then
      if Links(d, live) != 2 || !ValidDatabase(d, d[Old], original, {2})
        || !EntryMatches(d, Old, original.id, 2) then STOP
      else Before(Unbind(Old), FinishOriginal(d - {Old}, tx, live))
    else if Links(d, live) != 1 then STOP
    else FinishOriginal(d, tx, live)
  }

  function FinishOriginal(d: Dir, tx: Transaction, live: Inode): Plan
    requires tx.original.Some?
  {
    var drop := DropValidation(d, tx, 1);
    var d' := Without(d, drop);
    if !ValidDatabase(d', live, tx.original.value, {1}) then Plan(drop, false)
    else PlanAfter(drop, ClearMarker(d', tx))
  }

  function PromoteOld(d: Dir, tx: Transaction): Plan
    requires Old in d && tx.original.Some?
  {
    Before(Bind(Live, d[Old]), Before(SyncDir, RetirePromoted(d[Live := d[Old]], tx, d[Old])))
  }

  function RetirePromoted(d: Dir, tx: Transaction, kept: Inode): Plan
    requires Live in d && Old in d && tx.original.Some?
  {
    if !ValidDatabase(d, d[Live], tx.original.value, {1, 2})
      || !FileMatches(d, d[Old], tx.original.value, {2}) then STOP
    else Before(Unbind(Old), FinishOriginal(d - {Old}, tx, kept))
  }

  /** RecoverInterruptedRestore, called before the database is opened. */
  function StartupPlan(d: Dir): Plan {
    if Marker !in d then Plan([], Old !in d)
    else
      var m := d[Marker];
      if m.private && Links(d, m) == 1 && m.text.Some? && m.text.value.marker == m.binding.id
      then RecoveryPlan(d, m.text.value)
      else STOP
  }

  /**
   What a method did against its plan: a prefix of the operations, all of them
   unless a system call failed, and success exactly when the plan succeeds.
   */
  ghost predicate Follows(p: Plan, did: seq<Op>, r: Outcome) {
    && did <= p.ops
    && (r.Done? ==> p.ok && did == p.ops)
    && (r.Refused? ==> !p.ok && did == p.ops)
  }

  method RemoveValidationName(dir: Directory, tx: Transaction, links: nat) returns (fault: bool, ghost did: seq<Op>)
    requires dir.Valid()
    modifies dir
    ensures dir.Valid() && dir.trace == Extend(old(dir.trace), did)
    ensures did <= DropValidation(old(dir.entries), tx, links)
    ensures !fault ==> did == DropValidation(old(dir.entries), tx, links)
    ensures !fault ==> dir.entries == Without(old(dir.entries), did)
  {
    fault, did := false, [];
    if !EntryMatches(dir.entries, Validation, tx.restored.id, links) { return; }
    var ok := dir.Unlinkat(Validation);
    if !ok { fault := true; return; }
    did := [Unbind(Validation)];
  }

  method ClearRestoreMarker(dir: Directory, tx: Transaction) returns (r: Outcome, ghost did: seq<Op>)
    requires dir.Valid()
    modifies dir
    ensures dir.Valid() && dir.trace == Extend(old(dir.trace), did)
    ensures Follows(ClearMarker(old(dir.entries), tx), did, r)
    ensures r.Done? ==> dir.entries == old(dir.entries) - {Marker}
  {
    did := [];
    if !Removable(dir.entries, Marker, tx.marker) { return Refused, did; }
    var ok := dir.Unlinkat(Marker);
    if !ok { return Fault, did; }
    did := [Unbind(Marker)];
    ok := dir.Sync();
    if !ok { return Fault, did; }
    return Done, [Unbind(Marker), SyncDir];
  }

  method SettleRestored(dir: Directory, tx: Transaction, live: Inode) returns (r: Outcome, ghost did: seq<Op>)
    requires dir.Valid()
    modifies dir
    ensures dir.Valid() && dir.trace == Extend(old(dir.trace), did)
    ensures Follows(PublishRestored(old(dir.entries), tx, live), did, r)
    ensures r.Done? ==> dir.entries == old(dir.entries) - {Marker}
  {
    did := [];
    if !ValidDatabase(dir.entries, live, tx.restored, {1}) { return Refused, did; }
    var ok := dir.Sync();
    if !ok { return Fault, did; }
    ghost var cleared;
    r, cleared := ClearRestoreMarker(dir, tx);
    Cons(old(dir.trace), SyncDir, cleared);
    return r, [SyncDir] + cleared;
  }

  method RetireRetained(dir: Directory, tx: Transaction, live: Inode) returns (r: Outcome, ghost did: seq<Op>)
    requires dir.Valid()
    modifies dir
    ensures dir.Valid() && dir.trace == Extend(old(dir.trace), did)
    ensures Follows(RetireOld(old(dir.entries), tx, live), did, r)
    ensures r.Done? ==> Marker !in dir.entries && Old !in dir.entries
  {
    did := [];
    if Old !in dir.entries {
      r, did := SettleRestored(dir, tx, live);
      return;
    }
    if tx.original.None? || !ValidDatabase(dir.entries, dir.entries[Old], tx.original.value,
                                           {1}) { return Refused, did; }
    var ok := dir.Unlinkat(Old);
    if !ok { return Fault, did; }
    ghost var rest;
    r, rest := SettleRestored(dir, tx, live);
    Cons(old(dir.trace), Unbind(Old), rest);
    return r, [Unbind(Old)] + rest;
  }

  method CleanUpRestored(dir: Directory, tx: Transaction, live: Inode) returns (r: Outcome, ghost did: seq<Op>)
    requires dir.Valid()
    modifies dir
    ensures dir.Valid() && dir.trace == Extend(old(dir.trace), did)
    ensures Follows(CleanRestored(old(dir.entries), tx, live), did, r)
    ensures r.Done? ==> Marker !in dir.entries && Old !in dir.entries
  {
    did := [];
    if Links(dir.entries, live) == 2 {
      var fault;
      fault, did := RemoveValidationName(dir, tx, 2);
      if fault { return Fault, did; }
    } else if Validation in dir.entries {
      return Refused, did;
    }
    ghost var rest;
    r, rest := RetireRetained(dir, tx, live);
    ExtendConcat(old(dir.trace), did, rest);
    return r, did + rest;
  }

  method RecoverRestored(dir: Directory, tx: Transaction) returns (r: Outcome, ghost did: seq<Op>)
    requires dir.Valid() && Live in dir.entries
    modifies dir
    ensures dir.Valid() && dir.trace == Extend(old(dir.trace), did)
    ensures Follows(KeepRestored(old(dir.entries), tx), did, r)
    ensures r.Done? ==> Marker !in dir.entries && Old !in dir.entries
  {
    did := [];
    var live := dir.entries[Live];
    if !ValidDatabase(dir.entries, live, tx.restored, {1, 2}) || !live.provenance { return Refused, did; }
    var ok := dir.Sync();
    if !ok { return Fault, did; }
    ghost var rest;
    r, rest := CleanUpRestored(dir, tx, live);
    Cons(old(dir.trace), SyncDir, rest);
    return r, [SyncDir] + rest;
  }

  method FinishRollback(dir: Directory, tx: Transaction, live: Inode) returns (r: Outcome, ghost did: seq<Op>)
    requires dir.Valid() && tx.original.Some?
    modifies dir
    ensures dir.Valid() && dir.trace == Extend(old(dir.trace), did)
    ensures Follows(FinishOriginal(old(dir.entries), tx, live), did, r)
    ensures r.Done? ==> Marker !in dir.entries && (Old in dir.entries ==> Old in old(dir.entries))
  {
    var fault;
    fault, did := RemoveValidationName(dir, tx, 1);
    if fault { return Fault, did; }
    if !ValidDatabase(dir.entries, live, tx.original.value, {1}) { return Refused, did; }
    ghost var cleared;
    r, cleared := ClearRestoreMarker(dir, tx);
    ExtendConcat(old(dir.trace), did, cleared);
    return r, did + cleared;
  }

  method RecoverOriginal(dir: Directory, tx: Transaction) returns (r: Outcome, ghost did: seq<Op>)
    requires dir.Valid() && Live in dir.entries && tx.original.Some?
    modifies dir
    ensures dir.Valid() && dir.trace == Extend(old(dir.trace), did)
    ensures Follows(KeepOriginal(old(dir.entries), tx), did, r)
    ensures r.Done? ==> Marker !in dir.entries && Old !in dir.entries
  {
    did := [];
    var live, original := dir.entries[Live], tx.original.value;
    if Old in dir.entries {
      if Links(dir.entries, live) != 2 { return Refused, did; }
      if !ValidDatabase(dir.entries, dir.entries[Old], original, {2}) { return Refused, did; }
      if !EntryMatches(dir.entries, Old, original.id, 2) { return Refused, did; }
      var ok := dir.Unlinkat(Old);
      if !ok { return Fault, did; }
      did := [Unbind(Old)];
    } else if Links(dir.entries, live) != 1 {
      return Refused, did;
    }
    ghost var rest;
    r, rest := FinishRollback(dir, tx, live);
    ExtendConcat(old(dir.trace), did, rest);
    return r, did + rest;
  }

  method FinishPromotion(dir: Directory, tx: Transaction, kept: Inode) returns (r: Outcome, ghost did: seq<Op>)
    requires dir.Valid() && Live in dir.entries && Old in dir.entries && tx.original.Some?
    modifies dir
    ensures dir.Valid() && dir.trace == Extend(old(dir.trace), did)
    ensures Follows(RetirePromoted(old(dir.entries), tx, kept), did, r)
    ensures r.Done? ==> Marker !in dir.entries && Old !in dir.entries
  {
    did := [];
    if !ValidDatabase(dir.entries, dir.entries[Live], tx.original.value, {1, 2}) { return Refused, did; }
    if !FileMatches(dir.entries, dir.entries[Old], tx.original.value, {2}) { return Refused, did; }
    var ok := dir.Unlinkat(Old);
    if !ok { return Fault, did; }
    ghost var rest;
    r, rest := FinishRollback(dir, tx, kept);
    Cons(old(dir.trace), Unbind(Old), rest);
    return r, [Unbind(Old)] + rest;
  }

  method Promote(dir: Directory, tx: Transaction) returns (r: Outcome, ghost did: seq<Op>)
    requires dir.Valid() && Live !in dir.entries && Old in dir.entries && tx.original.Some?
    modifies dir
    ensures dir.Valid() && dir.trace == Extend(old(dir.trace), did)
    ensures Follows(PromoteOld(old(dir.entries), tx), did, r)
    ensures r.Done? ==> Marker !in dir.entries && Old !in dir.entries
  {
    var kept := dir.entries[Old];
    var ok := dir.Linkat(Live, kept);
    if !ok { return Fault, []; }
    ok := dir.Sync();
    if !ok { return Fault, [Bind(Live, kept)]; }
    ghost var rest;
    r, rest := FinishPromotion(dir, tx, kept);
    Cons(Then(old(dir.trace), Bind(Live, kept)), SyncDir, rest);
    Cons(old(dir.trace), Bind(Live, kept), [SyncDir] + rest);
    return r, [Bind(Live, kept)] + ([SyncDir] + rest);
  }

  method RecoverTransaction(dir: Directory, tx: Transaction) returns (r: Outcome, ghost did: seq<Op>)
    requires dir.Valid()
    modifies dir
    ensures dir.Valid() && dir.trace == Extend(old(dir.trace), did)
    ensures Follows(RecoveryPlan(old(dir.entries), tx), did, r)
    ensures r.Done? ==> Marker !in dir.entries && Old !in dir.entries
  {
    did := [];
    if !EntryMatches(dir.entries, Marker, tx.marker, 1) { return Refused, did; }
    if Live in dir.entries && !dir.entries[Live].private { return Refused, did; }
    if Old in dir.entries && !dir.entries[Old].private { return Refused, did; }
    if Live in dir.entries {
      if FileMatches(dir.entries, dir.entries[Live], tx.restored, {1, 2}) {
        r, did := RecoverRestored(dir, tx);
        return;
      }
      if tx.original.Some? && FileMatches(dir.entries, dir.entries[Live], tx.original.value, {1, 2}) {
        r, did := RecoverOriginal(dir, tx);
        return;
      }
      return Refused, did;
    }
    if tx.original.None? {
      if Old in dir.entries { return Refused, did; }
      var fault;
      fault, did := RemoveValidationName(dir, tx, 1);
      if fault { return Fault, did; }
      ghost var cleared;
      r, cleared := ClearRestoreMarker(dir, tx);
      ExtendConcat(old(dir.trace), did, cleared);
      return r, did + cleared;
    }
    if Old !in dir.entries { return Refused, did; }
    if !ValidDatabase(dir.entries, dir.entries[Old], tx.original.value, {1}) { return Refused, did; }
    r, did := Promote(dir, tx);
  }

  method RecoverInterrupted(dir: Directory) returns (r: Outcome, ghost did: seq<Op>)
    requires dir.Valid()
    modifies dir
    ensures dir.Valid() && dir.trace == Extend(old(dir.trace), did)
    ensures Follows(StartupPlan(old(dir.entries)), did, r)
    ensures r.Done? ==> Marker !in dir.entries && Old !in dir.entries
    ensures Marker !in old(dir.entries) ==> did == [] && (r.Done? <==> Old !in old(dir.entries))
  {
    did := [];
    if Marker !in dir.entries {
      return if Old in dir.entries then Refused else Done, did;
    }
    var m := dir.entries[Marker];
    if !m.private || Links(dir.entries, m) != 1 || m.text.None? || m.text.value.marker != m.binding.id {
      return Refused, did;
    }
    r, did := RecoverTransaction(dir, m.text.value);
  }

  // ----- installation -----

  /** The objects of one restore: the live database, the prepared copy, and the new marker. */
  datatype Setup = Setup(original: Option<Inode>, restored: Inode, marker: Inode) {
    function Tx(): Transaction {
      Transaction(restored.binding, if original.Some? then Some(original.value.binding) else None, marker.binding.id)
    }

    /** The directory when the restore begins. */
    function Origin(): Dir {
      if original.Some? then map[Live := original.value] else map[]
    }

    ghost predicate Valid() {
      && restored.private && restored.sqlite && restored.provenance && restored.elsewhere == 0
      && marker.private && marker.elsewhere == 0 && marker.text == Some(Tx())
      && restored.binding.id != marker.binding.id
      && (original.Some? ==>
            && original.value.private && original.value.sqlite && original.value.elsewhere == 0
            && original.value.binding.id != marker.binding.id && original.value.binding.id != restored.binding.id)
    }
  }

  function RetainOps(s: Setup): seq<Op> {
    if s.original.Some? then [Bind(Old, s.original.value), SyncDir, Unbind(Live), SyncDir] else []
  }

  function RetireOps(s: Setup): seq<Op> {
    if s.original.Some? then [Unbind(Old)] else []
  }

  function MarkerOps(s: Setup): seq<Op> {
    [Bind(Validation, s.restored), Bind(Marker, s.marker), FsyncMarker, SyncDir]
  }

  /** Everything up to the point where the restored database takes the live name. */
  function PrepareOps(s: Setup): seq<Op> { MarkerOps(s) + RetainOps(s) }

  function LinkOps(s: Setup): seq<Op> { [Bind(Live, s.restored), SyncDir] }

  function CleanOps(s: Setup): seq<Op> { [Unbind(Validation)] + RetireOps(s) + [Unbind(Marker), SyncDir] }

  function ReadyDir(s: Setup): Dir {
    map[Validation := s.restored, Marker := s.marker]
    + if s.original.Some? then map[Old := s.original.value] else map[]
  }

  function InstallOps(s: Setup): seq<Op> { PrepareOps(s) + LinkOps(s) + CleanOps(s) }

  /** The first steps of installExactRestore: bind the candidate and write the durable marker. */
  method WriteMarker(dir: Directory, s: Setup) returns (ok: bool, ghost did: seq<Op>)
    requires dir.Valid() && s.Valid() && dir.entries == s.Origin()
    modifies dir
    ensures dir.Valid() && dir.trace == Extend(old(dir.trace), did) && did <= MarkerOps(s)
    ensures ok ==> did == MarkerOps(s) && dir.entries == s.Origin()[Validation := s.restored][Marker := s.marker]
  {
    did := [];
    ok := dir.Linkat(Validation, s.restored);
    if !ok { return; }
    Snoc(old(dir.trace), did, Bind(Validation, s.restored));
    did := did + [Bind(Validation, s.restored)];
    assert FileMatches(dir.entries, s.restored, s.restored.binding, {1});
    assert EntryMatches(dir.entries, Validation, s.restored.binding.id, 1);
    assert Old !in dir.entries && Marker !in dir.entries;
    assert s.original.Some? ==> ValidDatabase(dir.entries, s.original.value, s.original.value.binding, {1});
    ok := dir.Linkat(Marker, s.marker);
    if !ok { return; }
    Snoc(old(dir.trace), did, Bind(Marker, s.marker));
    did := did + [Bind(Marker, s.marker)];
    ok := dir.FsyncMarkerFile();
    if !ok { return; }
    Snoc(old(dir.trace), did, FsyncMarker);
    did := did + [FsyncMarker];
    ok := dir.Sync();
    if !ok { return; }
    Snoc(old(dir.trace), did, SyncDir);
    did := did + [SyncDir];
  }

  /** The original keeps only its second name. */
  method RetainOriginal(dir: Directory, s: Setup) returns (ok: bool, ghost did: seq<Op>)
    requires dir.Valid() && s.Valid()
    requires dir.entries == s.Origin()[Validation := s.restored][Marker := s.marker]
    modifies dir
    ensures dir.Valid() && dir.trace == Extend(old(dir.trace), did) && did <= RetainOps(s)
    ensures ok ==> did == RetainOps(s) && dir.entries == ReadyDir(s)
  {
    did, ok := [], true;
    if s.original.None? { return; }
    var original := s.original.value;
    ok := dir.Linkat(Old, original);
    if !ok { return; }
    did := did + [Bind(Old, original)];
    assert EntryMatches(dir.entries, Live, original.binding.id, 2);
    assert EntryMatches(dir.entries, Old, original.binding.id, 2);
    ok := dir.Sync();
    if !ok { return; }
    Snoc(old(dir.trace), did, SyncDir);
    did := did + [SyncDir];
    ok := dir.Unlinkat(Live);
    if !ok { return; }
    Snoc(old(dir.trace), did, Unbind(Live));
    did := did + [Unbind(Live)];
    assert FileMatches(dir.entries, original, original.binding, {1});
    assert EntryMatches(dir.entries, Old, original.binding.id, 1);
    ok := dir.Sync();
    if !ok { return; }
    Snoc(old(dir.trace), did, SyncDir);
    did := did + [SyncDir];
  }

  /** The restored database takes the live name. */
  method LinkRestored(dir: Directory, s: Setup) returns (linked: bool, ok: bool, ghost did: seq<Op>)
    requires dir.Valid() && s.Valid() && dir.entries == ReadyDir(s)
    modifies dir
    ensures dir.Valid() && dir.trace == Extend(old(dir.trace), did) && did <= LinkOps(s)
    ensures ok ==> linked && did == LinkOps(s) && dir.entries == ReadyDir(s)[Live := s.restored]
    ensures !linked ==> did == [] && dir.entries == ReadyDir(s)
  {
    did, ok := [], false;
    linked := dir.Linkat(Live, s.restored);
    if !linked { return; }
    did := did + [Bind(Live, s.restored)];
    ok := dir.Sync();
    if !ok { return; }
    Snoc(old(dir.trace), did, SyncDir);
    did := did + [SyncDir];
    assert ValidDatabase(dir.entries, dir.entries[Live], s.restored.binding, {2}) && dir.entries[Live].provenance;
  }

  /** The evidence of the transaction is removed, the marker last. */
  method RemoveEvidence(dir: Directory, s: Setup) returns (ok: bool, ghost did: seq<Op>)
    requires dir.Valid() && s.Valid() && dir.entries == ReadyDir(s)[Live := s.restored]
    modifies dir
    ensures dir.Valid() && dir.trace == Extend(old(dir.trace), did) && did <= CleanOps(s)
    ensures ok ==> did == CleanOps(s) && dir.entries == map[Live := s.restored]
  {
    did := [];
    ok := dir.Unlinkat(Validation);
    if !ok { return; }
    did := did + [Unbind(Validation)];
    assert EntryMatches(dir.entries, Live, s.restored.binding.id, 1);
    if s.original.Some? {
      assert ValidDatabase(dir.entries, dir.entries[Old], s.original.value.binding, {1});
      ok := dir.Unlinkat(Old);
      if !ok { return; }
      Snoc(old(dir.trace), did, Unbind(Old));
      did := did + [Unbind(Old)];
    }
    assert Removable(dir.entries, Marker, s.marker.binding.id);
    ok := dir.Unlinkat(Marker);
    if !ok { return; }
    Snoc(old(dir.trace), did, Unbind(Marker));
    did := did + [Unbind(Marker)];
    ok := dir.Sync();
    if !ok { return; }
    Snoc(old(dir.trace), did, SyncDir);
    did := did + [SyncDir];
  }

  /**
   installExactRestore on a directory without an unfinished restore. `interrupted`
   stands for the stop request just before the restored database takes the live
   name; like a failed link it rolls back in place.
   */
  method Install(dir: Directory, s: Setup, interrupted: bool)
    returns (ok: bool, ghost did: seq<Op>, ghost undo: seq<Op>)
    requires dir.Valid() && s.Valid() && dir.entries == s.Origin()
    modifies dir
    ensures dir.Valid() && dir.trace == Extend(Extend(old(dir.trace), did), undo)
    ensures did <= InstallOps(s) && (ok ==> did == InstallOps(s) && undo == [])
    ensures ok ==> dir.entries == map[Live := s.restored]
    ensures undo != [] ==> did == PrepareOps(s) && undo <= RecoveryPlan(ReadyDir(s), s.Tx()).ops
  {
    undo := [];
    ok, did := WriteMarker(dir, s);
    if !ok { return; }
    ghost var retained;
    ok, retained := RetainOriginal(dir, s);
    ExtendConcat(old(dir.trace), did, retained);
    did := did + retained;
    if !ok { return; }
    assert did == PrepareOps(s);
    var linked := false;
    ghost var linking := [];
    if !interrupted {
      linked, ok, linking := LinkRestored(dir, s);
    }
    if !linked {
      ok := false;
      var _, undone := RecoverTransaction(dir, s.Tx());
      undo := undone;
      return;
    }
    ExtendConcat(old(dir.trace), did, linking);
    did := did + linking;
    if !ok { return; }
    ghost var cleaning;
    ok, cleaning := RemoveEvidence(dir, s);
    ExtendConcat(old(dir.trace), did, cleaning);
    did := did + cleaning;
  }
}
