/** The text of a restore transaction marker: printing it and reading it back. */
module RestoreMarker {
  import opened Common
  import opened Decimals

  const UINT64: int := 0x1_0000_0000_0000_0000
  const INT64: int := 0x8000_0000_0000_0000

  type uint64 = n: int | 0 <= n < UINT64
  type int64 = n: int | -INT64 <= n < INT64

  datatype FileId = FileId(device: uint64, inode: uint64)
  datatype Binding = Binding(id: FileId, size: int64, sha: string)
  datatype Transaction = Transaction(backup: string, restored: Binding, hadLive: bool, original: Binding,
                                     marker: FileId)

  const NOBINDING := Binding(FileId(0, 0), 0, "")
  const HEADER := "M10_RESTORE_V3"

  predicate Hex(c: char) { '0' <= c <= '9' || 'a' <= c <= 'f' }

  predicate AllHex(s: string) { forall c :: c in s ==> Hex(c) }

  /** validSHA256 */
  predicate ValidSha(s: string) { |s| == 64 && AllHex(s) }

  /** ParseBackupID */
  predicate ValidBackup(s: string) { |s| == 39 && s[..7] == "backup_" && AllHex(s[7..]) }

  predicate ValidBinding(b: Binding) { b.id.device != 0 && b.id.inode != 0 && b.size > 0 && ValidSha(b.sha) }

  /** validateRestoreTransaction with the marker identity required. */
  predicate ValidTransaction(tx: Transaction) {
    && ValidBackup(tx.backup) && ValidBinding(tx.restored)
    && (if tx.hadLive then ValidBinding(tx.original) else tx.original == NOBINDING)
    && tx.marker.device != 0 && tx.marker.inode != 0
  }

  // ----- text -----

  /** strconv.ParseUint(s, 10, 64) */
  function ParseUint(s: string): Option<uint64> {
    if s == "" || exists c :: c in s && !IsDigit(c) then None
    else if Value(s) < UINT64 then Some(Value(s)) else None
  }

  /** strconv.ParseInt(s, 10, 64) */
  function ParseInt(s: string): Option<int64> {
    if s == "" then None
    else
      var digits := if s[0] == '+' || s[0] == '-' then s[1..] else s;
      match ParseUint(digits)
      case None => None
      case Some(n) =>
        var m: int := n;
        var signed := if s[0] == '-' then -m else m;
        if -INT64 <= signed < INT64 then Some(signed as int64) else None
  }

  function Join(parts: seq<string>): string
    requires parts != []
  {
    if |parts| == 1 then parts[0] else parts[0] + "\n" + Join(parts[1..])
  }

  /** strings.Split(s, "\n") */
  function Split(s: string): seq<string> {
    var n := LineEnd(s);
    if n == |s| then [s] else [s[..n]] + Split(s[n + 1..])
  }

  function LineEnd(s: string): (n: nat)
    ensures n <= |s| && (n < |s| ==> s[n] == '\n') && forall k :: 0 <= k < n ==> s[k] != '\n'
  {
    if s == "" || s[0] == '\n' then 0 else 1 + LineEnd(s[1..])
  }

  function Parts(tx: Transaction): seq<string> {
    [HEADER, tx.backup, tx.restored.sha, Signed(tx.restored.size), Decimal(tx.restored.id.device),
     Decimal(tx.restored.id.inode),
     if tx.hadLive then "1" else "0", if tx.hadLive then tx.original.sha else "-",
     Signed(tx.original.size), Decimal(tx.original.id.device), Decimal(tx.original.id.inode),
     Decimal(tx.marker.device), Decimal(tx.marker.inode), ""]
  }

  /** The contents createRestoreTransactionMarker writes. */
  function Print(tx: Transaction): string { Join(Parts(tx)) }

  /** readRestoreTransactionMarker on the given bytes of a marker file with identity `actual`. */
  function Parse(text: string, actual: FileId): Option<Transaction> {
    if |text| >= 1024 then None
    else
      var p := Split(text);
      if |p| != 14 || p[0] != HEADER || p[13] != "" || (p[6] != "0" && p[6] != "1") || !ValidBackup(p[1]) then None
      else
        match (ParseInt(p[3]), ParseUint(p[4]), ParseUint(p[5]), ParseInt(p[8]), ParseUint(p[9]), ParseUint(p[10]),
               ParseUint(p[11]), ParseUint(p[12]))
        case (Some(size), Some(device), Some(inode), Some(osize), Some(odevice), Some(oinode), Some(mdevice),
              Some(minode)) =>
          var hadLive := p[6] == "1";
          var tx := Transaction(p[1], Binding(FileId(device, inode), size, p[2]), hadLive,
                                Binding(FileId(odevice, oinode), osize, if hadLive then p[7] else ""),
                                FileId(mdevice, minode));
          if !hadLive && p[7] != "-" then None
          else if !ValidTransaction(tx) || tx.marker != actual then None
          else Some(tx)
        case _ => None
  }

  // ----- decimals -----

  function Pow10(k: nat): nat { if k == 0 then 1 else 10 * Pow10(k - 1) }

  lemma {:induction false} DecimalLength(n: nat, k: nat)
    requires k > 0 && n < Pow10(k)
    ensures |Decimal(n)| <= k
  {
    if n >= 10 {
      DecimalLength(n / 10, k - 1);
    }
  }

  lemma Uint64Length(n: uint64)
    ensures |Decimal(n)| <= 20
  {
    var ten5 := Pow10(5);
    assert Pow10(5) == 100000;
    Pow10Add(5, 5); Pow10Add(10, 10);
    assert Pow10(20) == 100000000000000000000;
    DecimalLength(n, 20);
  }

  lemma {:induction false} Pow10Add(a: nat, b: nat)
    ensures Pow10(a + b) == Pow10(a) * Pow10(b)
  {
    if a > 0 {
      Pow10Add(a - 1, b);
    }
  }

  lemma UintRoundTrip(n: uint64)
    ensures ParseUint(Decimal(n)) == Some(n) && '\n' !in Decimal(n)
  {
    DecimalDigits(n);
  }

  lemma IntRoundTrip(n: int64)
    requires n >= 0
    ensures ParseInt(Signed(n)) == Some(n) && '\n' !in Signed(n)
  {
    DecimalDigits(n);
    UintRoundTrip(n);
    assert Decimal(n)[0] in Decimal(n);
  }

  // ----- lines -----

  predicate Lines(parts: seq<string>) { forall p :: p in parts ==> '\n' !in p }

  lemma {:induction false} LineEndIs(s: string, n: nat)
    requires n <= |s| && (n < |s| ==> s[n] == '\n') && forall k :: 0 <= k < n ==> s[k] != '\n'
    ensures LineEnd(s) == n
  {
    if n > 0 {
      LineEndIs(s[1..], n - 1);
    }
  }

  lemma {:induction false} SplitJoin(parts: seq<string>)
    requires parts != [] && Lines(parts)
    ensures Split(Join(parts)) == parts
  {
    var s, head := Join(parts), parts[0];
    assert forall k :: 0 <= k < |head| ==> head[k] in head;
    LineEndIs(s, |head|);
    if |parts| > 1 {
      var rest := Join(parts[1..]);
      assert s == head + "\n" + rest;
      assert s[..|head|] == head && s[|head| + 1..] == rest;
      SplitJoin(parts[1..]);
    }
  }

  function Newlines(s: string): nat {
    if s == "" then 0 else (if s[0] == '\n' then 1 else 0) + Newlines(s[1..])
  }

  lemma {:induction false} NewlinesConcat(a: string, b: string)
    ensures Newlines(a + b) == Newlines(a) + Newlines(b)
  {
    if a == "" {
      assert a + b == b;
    } else {
      assert (a + b)[1..] == a[1..] + b;
      NewlinesConcat(a[1..], b);
    }
  }

  lemma {:induction false} NoNewlines(s: string)
    requires forall k :: 0 <= k < |s| ==> s[k] != '\n'
    ensures Newlines(s) == 0
  {
    if s != "" {
      NoNewlines(s[1..]);
    }
  }

  lemma {:induction false} SplitCount(s: string)
    ensures |Split(s)| == Newlines(s) + 1
    decreases |s|
  {
    var n := LineEnd(s);
    if n == |s| {
      NoNewlines(s);
    } else {
      NoNewlines(s[..n]);
      SplitCount(s[n + 1..]);
      assert s == s[..n] + s[n..] && s[n..][1..] == s[n + 1..];
      NewlinesConcat(s[..n], s[n..]);
    }
  }

  // ----- the marker -----

  lemma PartsAreLines(tx: Transaction)
    requires ValidTransaction(tx)
    ensures Lines(Parts(tx))
  {
    IntRoundTrip(tx.restored.size); IntRoundTrip(tx.original.size);
    UintRoundTrip(tx.restored.id.device); UintRoundTrip(tx.restored.id.inode);
    UintRoundTrip(tx.original.id.device); UintRoundTrip(tx.original.id.inode);
    UintRoundTrip(tx.marker.device); UintRoundTrip(tx.marker.inode);
    assert '\n' !in tx.backup by {
      assert tx.backup == "backup_" + tx.backup[7..];
      assert '\n' !in tx.backup[7..] by { assert !Hex('\n'); }
    }
    assert '\n' !in tx.restored.sha by { assert !Hex('\n'); }
    assert tx.hadLive ==> '\n' !in tx.original.sha by { assert !Hex('\n'); }
  }

  lemma {:induction false} JoinLength(parts: seq<string>)
    requires parts != [] && forall k :: 0 <= k < |parts| ==> |parts[k]| <= 64
    ensures |Join(parts)| <= 65 * |parts|
  {
    if |parts| > 1 {
      JoinLength(parts[1..]);
    }
  }

  lemma PrintFits(tx: Transaction)
    requires ValidTransaction(tx)
    ensures |Print(tx)| < 1024
  {
    Uint64Length(tx.restored.size); Uint64Length(tx.original.size);
    Uint64Length(tx.restored.id.device); Uint64Length(tx.restored.id.inode);
    Uint64Length(tx.original.id.device); Uint64Length(tx.original.id.inode);
    Uint64Length(tx.marker.device); Uint64Length(tx.marker.inode);
    var p := Parts(tx);
    assert |p| == 14;
    assert |p[0]| <= 64 && |p[1]| <= 64 && |p[2]| <= 64 && |p[3]| <= 64 && |p[4]| <= 64 && |p[5]| <= 64 && |p[6]| <= 64;
    assert |p[7]| <= 64 && |p[8]| <= 64 && |p[9]| <= 64 && |p[10]| <= 64 && |p[11]| <= 64 && |p[12]| <= 64
      && |p[13]| <= 64;
    JoinLength(p);
  }

  /** Every valid transaction, with or without an original, reads back unchanged. */
  lemma MarkerRoundTrip(tx: Transaction)
    requires ValidTransaction(tx)
    ensures |Print(tx)| < 1024 && Parse(Print(tx), tx.marker) == Some(tx)
  {
    PrintFits(tx);
    PartsAreLines(tx);
    SplitJoin(Parts(tx));
    IntRoundTrip(tx.restored.size); IntRoundTrip(tx.original.size);
    UintRoundTrip(tx.restored.id.device); UintRoundTrip(tx.restored.id.inode);
    UintRoundTrip(tx.original.id.device); UintRoundTrip(tx.original.id.inode);
    UintRoundTrip(tx.marker.device); UintRoundTrip(tx.marker.inode);
  }

  lemma {:induction false} JoinEndsInNewline(parts: seq<string>)
    requires |parts| >= 2 && parts[|parts| - 1] == ""
    ensures Join(parts) != "" && Join(parts)[|Join(parts)| - 1] == '\n'
  {
    if |parts| > 2 {
      JoinEndsInNewline(parts[1..]);
    } else {
      assert Join(parts[1..]) == "";
    }
  }

  lemma PrintNewlines(tx: Transaction)
    requires ValidTransaction(tx)
    ensures var s := Print(tx); s != "" && s[|s| - 1] == '\n' && Newlines(s) == 13
  {
    PartsAreLines(tx);
    SplitJoin(Parts(tx));
    SplitCount(Print(tx));
    JoinEndsInNewline(Parts(tx));
  }

  lemma PrefixNewlines(s: string, n: nat)
    requires n < |s| && s[|s| - 1] == '\n'
    ensures Newlines(s[..n]) < Newlines(s)
  {
    var last := |s| - 1;
    assert s == s[..n] + s[n..];
    assert s[n..] == s[n..last] + "\n";
    NewlinesConcat(s[..n], s[n..]);
    NewlinesConcat(s[n..last], "\n");
    assert Newlines("\n") == 1;
  }

  /** A marker cut short anywhere is rejected, whatever file it is read from. */
  lemma TornMarkerRejected(tx: Transaction, n: nat, actual: FileId)
    requires ValidTransaction(tx) && n < |Print(tx)|
    ensures Parse(Print(tx)[..n], actual) == None
  {
    var s := Print(tx);
    PrintNewlines(tx);
    PrefixNewlines(s, n);
    SplitCount(s[..n]);
  }

  /** The lines of a marker, in their order. */
  lemma MarkerLines(tx: Transaction)
    requires ValidTransaction(tx)
    ensures var p := Split(Print(tx));
            && |p| == 14 && p[0] == "M10_RESTORE_V3" && p[1] == tx.backup && p[2] == tx.restored.sha
            && p[3] == Decimal(tx.restored.size) && p[4] == Decimal(tx.restored.id.device)
            && p[5] == Decimal(tx.restored.id.inode) && p[6] == (if tx.hadLive then "1" else "0")
            && p[7] == (if tx.hadLive then tx.original.sha else "-")
            && p[8] == (if tx.hadLive then Decimal(tx.original.size) else "0")
            && p[9] == (if tx.hadLive then Decimal(tx.original.id.device) else "0")
            && p[10] == (if tx.hadLive then Decimal(tx.original.id.inode) else "0")
            && p[11] == Decimal(tx.marker.device) && p[12] == Decimal(tx.marker.inode) && p[13] == ""
  {
    PartsAreLines(tx);
    SplitJoin(Parts(tx));
    assert Decimal(0) == "0";
  }

  predicate LowerHex(s: string, n: nat) { |s| == n && forall c :: c in s ==> c in "0123456789abcdef" }

  predicate Identified(b: Binding) {
    1 <= b.id.device && 1 <= b.id.inode && 1 <= b.size && LowerHex(b.sha, 64)
  }

  lemma HexIs(s: string)
    requires AllHex(s)
    ensures LowerHex(s, |s|)
  {
    forall c | c in s ensures c in "0123456789abcdef" {
      assert Hex(c);
      var digits := "0123456789abcdef";
      var at := if c <= '9' then c as int - '0' as int else c as int - 'a' as int + 10;
      assert digits[at] == c;
    }
  }

  /** Whatever is read names the marker file it was read from, one backup, and real files with whole digests. */
  lemma ParsedIsIdentified(text: string, actual: FileId)
    requires Parse(text, actual).Some?
    ensures var tx := Parse(text, actual).value;
            && tx.marker == actual && actual.device >= 1 && actual.inode >= 1
            && |tx.backup| == 39 && tx.backup[..7] == "backup_" && LowerHex(tx.backup[7..], 32)
            && Identified(tx.restored)
            && (if tx.hadLive then Identified(tx.original)
                else tx.original.id == FileId(0, 0) && tx.original.size == 0 && tx.original.sha == "")
  {
    var tx := Parse(text, actual).value;
    HexIs(tx.backup[7..]);
    HexIs(tx.restored.sha);
    if tx.hadLive { HexIs(tx.original.sha); }
  }
}
