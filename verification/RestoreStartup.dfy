/** Startup on any directory whatsoever: what it accepts, exactly, and what it leaves. */
module RestoreStartup {
  import opened Common
  import opened DataDirectory
  import opened Restore
  import opened RestoreRecovery

  /** `name` is a private object with that binding and so many links. */
  predicate Is(d: Dir, name: Name, b: Binding, links: nat) {
    name in d && d[name].private && d[name].binding == b && Links(d, d[name]) == links
  }

  /** The restored database is live, alone or with the name it was validated under, and so is at most the original. */
  predicate RestoredStands(d: Dir, tx: Transaction) {
    && Live in d && d[Live].sqlite && d[Live].provenance
    && (if Validation in d then
          && Is(d, Live, tx.restored, 2)
          && d[Validation].private && d[Validation].binding.id == tx.restored.id && Links(d, d[Validation]) == 2
        else Is(d, Live, tx.restored, 1))
    && (Old in d ==> tx.original.Some? && Is(d, Old, tx.original.value, 1) && d[Old].sqlite)
  }

  /** The original is live, alone or with the name it is retained under. */
  predicate OriginalStands(d: Dir, tx: Transaction) {
    && Live in d && d[Live].sqlite && tx.original.Some?
    && if Old in d then
         Is(d, Live, tx.original.value, 2) && Is(d, Old, tx.original.value, 2) && d[Old].sqlite
       else Is(d, Live, tx.original.value, 1)
  }

  /** Nothing is live, and the original is retained, if there was one. */
  predicate OriginalRetained(d: Dir, tx: Transaction) {
    && Live !in d
    && if tx.original.Some? then Is(d, Old, tx.original.value, 1) && d[Old].sqlite else Old !in d
  }

  predicate OwnMarker(d: Dir, tx: Transaction) {
    Marker in d && d[Marker].private && d[Marker].binding.id == tx.marker && Links(d, d[Marker]) == 1
  }

  lemma ClearingOk(d: Dir, tx: Transaction)
    ensures ClearMarker(d, tx).ok <==> Removable(d, Marker, tx.marker)
  {
  }

  lemma FinishOk(d: Dir, tx: Transaction)
    requires tx.original.Some? && Live in d && Removable(d, Marker, tx.marker)
    ensures FinishOriginal(d, tx, d[Live]).ok <==> Is(d, Live, tx.original.value, 1) && d[Live].sqlite
  {
    var drop := DropValidation(d, tx, 1);
    if drop != [] { assert Links(d, d[Validation]) == 1; }
  }

  lemma KeepRestoredOk(d: Dir, tx: Transaction)
    requires Live in d && Removable(d, Marker, tx.marker)
    ensures KeepRestored(d, tx).ok <==> RestoredStands(d, tx)
  {
    var drop := DropValidation(d, tx, 2);
    var d' := Without(d, drop);
    if KeepRestored(d, tx).ok {
      RetireOldOk(if Links(d, d[Live]) == 2 then d' else d, tx, d[Live]);
    }
    if RestoredStands(d, tx) {
      RetireOldOk(if Links(d, d[Live]) == 2 then d' else d, tx, d[Live]);
    }
  }

  lemma RetireOldOk(d: Dir, tx: Transaction, live: Inode)
    requires Live in d && d[Live] == live && Removable(d, Marker, tx.marker)
    ensures RetireOld(d, tx, live).ok <==>
            && (Old in d ==> tx.original.Some? && Is(d, Old, tx.original.value, 1) && d[Old].sqlite)
            && Is(d, Live, tx.restored, 1) && live.sqlite
  {
  }

  lemma KeepOriginalOk(d: Dir, tx: Transaction)
    requires Live in d && tx.original.Some? && Removable(d, Marker, tx.marker)
    requires FileMatches(d, d[Live], tx.original.value, {1, 2})
    ensures KeepOriginal(d, tx).ok <==> OriginalStands(d, tx)
  {
    FinishOk(d, tx);
    FinishOk(d - {Old}, tx);
  }

  lemma PromoteOldOk(d: Dir, tx: Transaction)
    requires Live !in d && Old in d && tx.original.Some? && OwnMarker(d, tx)
    requires ValidDatabase(d, d[Old], tx.original.value, {1})
    ensures PromoteOld(d, tx).ok
  {
    var linked := d[Live := d[Old]];
    assert Links(linked, d[Old]) == 2;
    FinishOk(linked - {Old}, tx);
    assert Links(linked - {Old}, d[Old]) == 1;
  }

  /**
   Recovery reports success on exactly these directories: the marker and every database
   name are private and the marker's own, and the restored database stands, or the
   original does, or it is retained with nothing live.
   */
  lemma RecoveryAcceptsExactly(d: Dir, tx: Transaction)
    ensures RecoveryPlan(d, tx).ok <==>
            && OwnMarker(d, tx) && (Old in d ==> d[Old].private)
            && if Live in d && d[Live].binding == tx.restored then RestoredStands(d, tx)
               else OriginalStands(d, tx) || OriginalRetained(d, tx)
  {
    if OwnMarker(d, tx) {
      if Live in d {
        KeepRestoredOk(d, tx);
        if tx.original.Some? && FileMatches(d, d[Live], tx.original.value, {1, 2}) { KeepOriginalOk(d, tx); }
      } else if tx.original.None? {
        ClearingOk(Without(d, DropValidation(d, tx, 1)), tx);
      } else if Old in d && ValidDatabase(d, d[Old], tx.original.value, {1}) {
        PromoteOldOk(d, tx);
      }
    }
  }

  // ---- what recovery takes away ---------------------------------------------------------

  lemma DropHolds(drop: seq<Op>, d: Dir, tx: Transaction)
    requires drop == DropValidation(d, tx, 1) || drop == DropValidation(d, tx, 2)
    ensures Unbind(Marker) !in drop && Unbind(Old) !in drop
  {
  }

  lemma ClearingHolds(d: Dir, tx: Transaction)
    ensures Unbind(Old) !in ClearMarker(d, tx).ops
    ensures Unbind(Marker) in ClearMarker(d, tx).ops <==> ClearMarker(d, tx).ok
  {
  }

  lemma FinishHolds(d: Dir, tx: Transaction, live: Inode)
    requires tx.original.Some?
    ensures Unbind(Old) !in FinishOriginal(d, tx, live).ops
    ensures Unbind(Marker) in FinishOriginal(d, tx, live).ops <==> FinishOriginal(d, tx, live).ok
  {
    var drop := DropValidation(d, tx, 1);
    DropHolds(drop, d, tx);
    ClearingHolds(Without(d, drop), tx);
  }

  lemma RetireHolds(d: Dir, tx: Transaction, live: Inode)
    ensures Unbind(Marker) in RetireOld(d, tx, live).ops <==> RetireOld(d, tx, live).ok
    ensures Unbind(Old) in RetireOld(d, tx, live).ops ==>
              Old in d && tx.original.Some? && d[Old].private && d[Old].binding == tx.original.value && d[Old].sqlite
  {
    ClearingHolds(d, tx);
    ClearingHolds(d - {Old}, tx);
  }

  lemma KeepRestoredHolds(d: Dir, tx: Transaction)
    requires Live in d
    ensures Unbind(Marker) in KeepRestored(d, tx).ops <==> KeepRestored(d, tx).ok
    ensures Unbind(Old) in KeepRestored(d, tx).ops ==>
              && Old in d && tx.original.Some? && d[Old].private && d[Old].binding == tx.original.value && d[Old].sqlite
              && d[Live].private && d[Live].binding == tx.restored && d[Live].sqlite && d[Live].provenance
  {
    var drop := DropValidation(d, tx, 2);
    DropHolds(drop, d, tx);
    RetireHolds(d, tx, d[Live]);
    RetireHolds(Without(d, drop), tx, d[Live]);
  }

  lemma KeepOriginalHolds(d: Dir, tx: Transaction)
    requires Live in d && tx.original.Some?
    ensures Unbind(Marker) in KeepOriginal(d, tx).ops <==> KeepOriginal(d, tx).ok
    ensures Unbind(Old) in KeepOriginal(d, tx).ops ==>
              Old in d && d[Old].private && d[Old].binding == tx.original.value && d[Old].sqlite
  {
    FinishHolds(d, tx, d[Live]);
    FinishHolds(d - {Old}, tx, d[Live]);
  }

  lemma PromoteHolds(d: Dir, tx: Transaction)
    requires Live !in d && Old in d && tx.original.Some? && ValidDatabase(d, d[Old], tx.original.value, {1})
    ensures Unbind(Marker) in PromoteOld(d, tx).ops <==> PromoteOld(d, tx).ok
    ensures PromoteOld(d, tx).ops[..2] == [Bind(Live, d[Old]), SyncDir]
  {
    var linked := d[Live := d[Old]];
    FinishHolds(linked - {Old}, tx, d[Old]);
  }

  /**
   Recovery takes away the marker exactly when it succeeds. It takes away restore-old only
   if that is the original, and the live database is the restored one, or the original,
   or has just been made live again under its own name and synced.
   */
  lemma RecoveryLetsGoOnlyWhen(d: Dir, tx: Transaction)
    ensures Unbind(Marker) in RecoveryPlan(d, tx).ops <==> RecoveryPlan(d, tx).ok
    ensures Unbind(Old) in RecoveryPlan(d, tx).ops ==>
              && Old in d && tx.original.Some? && d[Old].private && d[Old].binding == tx.original.value && d[Old].sqlite
              && if Live in d then
                   d[Live].private && (d[Live].binding == tx.original.value
                                       || (d[Live].binding == tx.restored && d[Live].sqlite && d[Live].provenance))
                 else RecoveryPlan(d, tx).ops[..2] == [Bind(Live, d[Old]), SyncDir]
  {
    if Live in d {
      KeepRestoredHolds(d, tx);
      if tx.original.Some? { KeepOriginalHolds(d, tx); }
    } else if tx.original.None? {
      var drop := DropValidation(d, tx, 1);
      DropHolds(drop, d, tx);
      ClearingHolds(Without(d, drop), tx);
    } else if Old in d && ValidDatabase(d, d[Old], tx.original.value, {1}) {
      PromoteHolds(d, tx);
    }
  }

  /** Recovery touches nothing unless the marker and a database of the transaction are where it left them. */
  lemma RecoveryActsOnlyWhen(d: Dir, tx: Transaction)
    ensures RecoveryPlan(d, tx).ops != [] ==>
              && OwnMarker(d, tx) && (Live in d ==> d[Live].private) && (Old in d ==> d[Old].private)
              && if Live in d then
                   || ((Is(d, Live, tx.restored, 1) || Is(d, Live, tx.restored, 2))
                       && d[Live].sqlite && d[Live].provenance)
                   || (tx.original.Some?
                       && if Old in d then Is(d, Live, tx.original.value, 2) && Is(d, Old, tx.original.value, 2)
                          else Is(d, Live, tx.original.value, 1))
                 else OriginalRetained(d, tx)
  {
  }

  /** The marker holds the transaction it was written for. */
  predicate Readable(d: Dir) {
    Marker in d && d[Marker].text.Some? && OwnMarker(d, d[Marker].text.value)
  }

  /**
   Startup reports success only with neither the marker nor restore-old left. Without a
   marker it does nothing, and succeeds exactly if restore-old is not there either;
   with one it acts only on a transaction the marker holds, which it then resolves.
   */
  lemma StartupOfAnyDirectory(d: Dir)
    ensures var p := StartupPlan(d);
            var end := EndDir(p.ops, d);
            && (p.ok ==> Marker !in end && Old !in end)
            && (Marker !in d ==> p.ops == [] && (p.ok <==> Old !in d))
            && (Marker in d && (p.ok || p.ops != []) ==>
                  && Readable(d)
                  && (forall op :: op in p.ops ==> OwnOp(op, d, d[Marker].text.value))
                  && (p.ok ==> Resolved(d, end, d[Marker].text.value)))
            && (Readable(d) ==> p == RecoveryPlan(d, d[Marker].text.value))
  {
    if Readable(d) { RecoveryOfAnyDirectory(d, d[Marker].text.value); }
  }
}
