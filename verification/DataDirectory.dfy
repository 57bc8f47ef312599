/**
 The Controller data directory as the restore code sees it: four fixed names,
 hard links, unlinks and two kinds of sync. A disk keeps the directory the
 running kernel shows, the directory that is durable, and the directory
 operations in between; a power loss keeps some of those operations.
 */
module DataDirectory {
  import opened Common

  /** farm.db, .farm.db.restore-old, .restore-exact-<id>, .farm.db.restore-in-progress */
  datatype Name = Live | Old | Validation | Marker

  /** What a restore transaction records about a database file. */
  datatype Binding = Binding(id: nat, size: nat, sha: string)

  datatype Transaction = Transaction(restored: Binding, original: Option<Binding>, marker: nat)

  /**
   A file object. Contents do not change while a restore is unfinished, so the
   outcome of every content check is a field: `private` for a regular mode-0600
   file, `sqlite` for schema and integrity checks, `provenance` for the restore
   metadata and Host barriers, `text` for the transaction a marker parses to
   (None: torn or not a marker), `elsewhere` for links outside the four names.
   */
  datatype Inode = Inode(binding: Binding, private: bool, sqlite: bool, provenance: bool,
                         text: Option<Transaction>, elsewhere: nat)

  type Dir = map<Name, Inode>

  function Lookup(d: Dir, name: Name): Option<Inode> {
    if name in d then Some(d[name]) else None
  }

  function LinkAt(d: Dir, name: Name, id: nat): nat {
    if name in d && d[name].binding.id == id then 1 else 0
  }

  /** The link count stat reports for an object. */
  function Links(d: Dir, i: Inode): nat {
    i.elsewhere + LinkAt(d, Live, i.binding.id) + LinkAt(d, Old, i.binding.id)
    + LinkAt(d, Validation, i.binding.id) + LinkAt(d, Marker, i.binding.id)
  }

  /** regularEntryMatchesLinks */
  predicate EntryMatches(d: Dir, name: Name, id: nat, links: nat) {
    name in d && d[name].private && d[name].binding.id == id && Links(d, d[name]) == links
  }

  /** The check of removeBoundRegularEntryAt before it unlinks. */
  predicate Removable(d: Dir, name: Name, id: nat) {
    name in d && d[name].private && d[name].binding.id == id
  }

  /** databaseFileMatches */
  predicate FileMatches(d: Dir, i: Inode, b: Binding, links: set<nat>) {
    i.private && i.binding == b && Links(d, i) in links
  }

  /** validateDatabaseBinding */
  predicate ValidDatabase(d: Dir, i: Inode, b: Binding, links: set<nat>) {
    FileMatches(d, i, b, links) && i.sqlite
  }

  // ----- operations and durability -----

  datatype Op = Bind(name: Name, inode: Inode) | Unbind(name: Name) | FsyncMarker | SyncDir

  function Effect(op: Op, d: Dir): Dir {
    match op
    case Bind(name, inode) => d[name := inode]
    case Unbind(name) => d - {name}
    case _ => d
  }

  /** `settled` is false between the creation of the marker and its own fsync. */
  datatype Disk = Disk(entries: Dir, durable: Dir, pending: seq<Op>, settled: bool)

  function Apply(op: Op, disk: Disk): Disk {
    match op
    case Bind(name, _) => disk.(entries := Effect(op, disk.entries), pending := disk.pending + [op],
                                settled := disk.settled && name != Marker)
    case Unbind(_) => disk.(entries := Effect(op, disk.entries), pending := disk.pending + [op])
    case FsyncMarker => disk.(settled := true)
    case SyncDir => disk.(durable := disk.entries, pending := [])
  }

  function Run(ops: seq<Op>, disk: Disk): Disk
    decreases |ops|
  {
    if ops == [] then disk else Run(ops[1..], Apply(ops[0], disk))
  }

  lemma {:induction false} RunConcat(a: seq<Op>, b: seq<Op>, disk: Disk)
    ensures Run(a + b, disk) == Run(b, Run(a, disk))
    decreases |a|
  {
    if a == [] {
      assert a + b == b;
    } else {
      assert (a + b)[1..] == a[1..] + b;
      RunConcat(a[1..], b, Apply(a[0], disk));
    }
  }

  /** The pending operations with index in `keep` reached the disk, in order. */
  function Replay(d: Dir, pending: seq<Op>, keep: set<nat>): Dir
    decreases |pending|
  {
    if pending == [] then d
    else
      var n := |pending| - 1;
      var before := Replay(d, pending[..n], keep);
      if n in keep then Effect(pending[n], before) else before
  }

  function TearInode(i: Inode): Inode { i.(text := None) }

  function TearDir(d: Dir): Dir {
    if Marker in d then d[Marker := TearInode(d[Marker])] else d
  }

  function TearOp(op: Op): Op {
    if op.Bind? && op.name == Marker then op.(inode := TearInode(op.inode)) else op
  }

  function TornOps(pending: seq<Op>): seq<Op> {
    seq(|pending|, i requires 0 <= i < |pending| => TearOp(pending[i]))
  }

  /** The directory after a power loss. An unsynced marker may come back torn. */
  function PowerLoss(disk: Disk, keep: set<nat>, torn: bool): Dir {
    var image := Replay(disk.durable, disk.pending, keep);
    if torn && !disk.settled then TearDir(image) else image
  }

  /** The disk a process leaves when it is killed: the kernel state stays. */
  function Killed(disk: Disk, torn: bool): Disk {
    if torn && !disk.settled then
      Disk(TearDir(disk.entries), TearDir(disk.durable), TornOps(disk.pending), disk.settled)
    else disk
  }

  function Boot(image: Dir): Disk { Disk(image, image, [], true) }

  /** A run so far: where it began and every operation performed since. */
  datatype Trace = Begin(disk: Disk) | Then(prev: Trace, op: Op)

  function State(t: Trace): Disk {
    match t
    case Begin(disk) => disk
    case Then(prev, op) => Apply(op, State(prev))
  }

  function Extend(t: Trace, ops: seq<Op>): Trace
    decreases |ops|
  {
    if ops == [] then t else Extend(Then(t, ops[0]), ops[1..])
  }

  lemma Cons(t: Trace, op: Op, rest: seq<Op>)
    ensures Extend(t, [op] + rest) == Extend(Then(t, op), rest)
  {
    assert ([op] + rest)[1..] == rest;
  }

  lemma {:induction false} ExtendConcat(t: Trace, a: seq<Op>, b: seq<Op>)
    ensures Extend(t, a + b) == Extend(Extend(t, a), b)
    decreases |a|
  {
    if a == [] {
      assert a + b == b;
    } else {
      assert (a + b)[1..] == a[1..] + b;
      ExtendConcat(Then(t, a[0]), a[1..], b);
    }
  }

  lemma Snoc(t: Trace, ops: seq<Op>, op: Op)
    ensures Extend(t, ops + [op]) == Then(Extend(t, ops), op)
  {
    ExtendConcat(t, ops, [op]);
  }

  /** A recorded run ends where running its operations ends. */
  lemma {:induction false} ExtendRuns(t: Trace, ops: seq<Op>)
    ensures State(Extend(t, ops)) == Run(ops, State(t))
    decreases |ops|
  {
    if ops != [] {
      ExtendRuns(Then(t, ops[0]), ops[1..]);
    }
  }

  /** The open data directory. Every system call may fail and then changes nothing. */
  class Directory {
    var entries: Dir
    var durable: Dir
    var pending: seq<Op>
    var settled: bool
    ghost var trace: Trace

    function Now(): Disk
      reads this
    {
      Disk(entries, durable, pending, settled)
    }

    /** The recorded run accounts for the whole state. */
    ghost predicate Valid()
      reads this
    {
      Now() == State(trace)
    }

    constructor (image: Dir)
      ensures Valid() && trace == Begin(Boot(image))
    {
      entries, durable, pending, settled := image, image, [], true;
      trace := Begin(Boot(image));
    }

    /** linkat(2) on an open descriptor; fails when the name exists. */
    method Linkat(name: Name, inode: Inode) returns (ok: bool)
      requires Valid()
      modifies this
      ensures Valid() && (!ok ==> trace == old(trace))
      ensures ok ==> name !in old(entries) && trace == Then(old(trace), Bind(name, inode))
    {
      ok := false;
      if name in entries { return; }
      if * { return; }
      entries, pending, settled := entries[name := inode], pending + [Bind(name, inode)], settled && name != Marker;
      trace := Then(trace, Bind(name, inode));
      ok := true;
    }

    method Unlinkat(name: Name) returns (ok: bool)
      requires Valid()
      modifies this
      ensures Valid() && (!ok ==> trace == old(trace))
      ensures ok ==> trace == Then(old(trace), Unbind(name))
    {
      ok := false;
      if * { return; }
      entries, pending := entries - {name}, pending + [Unbind(name)];
      trace := Then(trace, Unbind(name));
      ok := true;
    }

    method Sync() returns (ok: bool)
      requires Valid()
      modifies this
      ensures Valid() && (!ok ==> trace == old(trace))
      ensures ok ==> trace == Then(old(trace), SyncDir)
    {
      ok := false;
      if * { return; }
      durable, pending := entries, [];
      trace := Then(trace, SyncDir);
      ok := true;
    }

    method FsyncMarkerFile() returns (ok: bool)
      requires Valid()
      modifies this
      ensures Valid() && (!ok ==> trace == old(trace))
      ensures ok ==> trace == Then(old(trace), FsyncMarker)
    {
      ok := false;
      if * { return; }
      settled := true;
      trace := Then(trace, FsyncMarker);
      ok := true;
    }
  }
}
