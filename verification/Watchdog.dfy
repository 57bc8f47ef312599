/** The Supervisor's crash window: how often the watchdog may restart, and after what delay. */
module Watchdog {
  import opened Common

  /** Times are nanoseconds. */
  datatype Config = Config(initial: int, max: int, limit: nat, window: int)

  /** What supervisor.New makes of any configuration. */
  predicate Normal(c: Config) { 0 < c.initial < INT64 && 0 < c.max < INT64 && c.limit > 0 && c.window > 0 }

  const INT64: int := 0x8000_0000_0000_0000

  function Recent(ts: seq<int>, cut: int): seq<int> {
    if ts == [] then []
    else
      var rest := Recent(ts[..|ts| - 1], cut);
      if ts[|ts| - 1] > cut then rest + [ts[|ts| - 1]] else rest
  }

  /** The crash list after a crash at `now`. */
  function WithCrash(crashes: seq<int>, now: int, c: Config): seq<int> { Recent(crashes, now - c.window) + [now] }

  /** The list after crashes at the times `ts`, from an explicit Start on. */
  function CrashList(ts: seq<int>, c: Config): seq<int> {
    if ts == [] then [] else WithCrash(CrashList(ts[..|ts| - 1], c), ts[|ts| - 1], c)
  }

  /** The watchdog restarts after the `i`th crash. */
  predicate Restarts(ts: seq<int>, c: Config, i: nat)
    requires i < |ts|
  {
    |CrashList(ts[..i + 1], c)| < c.limit
  }

  predicate Ordered(ts: seq<int>) { forall i, j :: 0 <= i < j < |ts| ==> ts[i] <= ts[j] }

  lemma {:induction false} RecentOfRecent(ts: seq<int>, cut: int, later: int)
    requires cut <= later
    ensures Recent(Recent(ts, cut), later) == Recent(ts, later)
  {
    if ts != [] {
      var n := |ts| - 1;
      RecentOfRecent(ts[..n], cut, later);
      var r := Recent(ts[..n], cut);
      if ts[n] > cut { assert (r + [ts[n]])[..|r|] == r; }
    }
  }

  lemma WindowStep(ts: seq<int>, before: seq<int>, c: Config)
    requires ts != [] && c.window > 0
    requires Recent(before, ts[|ts| - 1] - c.window) == Recent(ts[..|ts| - 1], ts[|ts| - 1] - c.window)
    ensures WithCrash(before, ts[|ts| - 1], c) == Recent(ts, ts[|ts| - 1] - c.window)
  {
  }

  /** The stored list is exactly the crashes of the last window. */
  lemma {:induction false} CrashListIsWindow(ts: seq<int>, c: Config)
    requires Ordered(ts) && ts != [] && c.window > 0
    ensures CrashList(ts, c) == Recent(ts, ts[|ts| - 1] - c.window)
  {
    var n := |ts| - 1;
    var cut := ts[n] - c.window;
    if n > 0 {
      CrashListIsWindow(ts[..n], c);
      RecentOfRecent(ts[..n], ts[..n][n - 1] - c.window, cut);
      assert Recent(CrashList(ts[..n], c), cut) == Recent(ts[..n], cut);
    }
    WindowStep(ts, CrashList(ts[..n], c), c);
  }

  function After(ts: seq<int>, cut: int): set<nat> { set i: nat | i < |ts| && ts[i] > cut }

  lemma {:induction false} RecentCounts(ts: seq<int>, cut: int)
    ensures |Recent(ts, cut)| == |After(ts, cut)|
  {
    if ts != [] {
      var n := |ts| - 1;
      RecentCounts(ts[..n], cut);
      assert After(ts, cut) == After(ts[..n], cut) + (if ts[n] > cut then {n} else {});
    }
  }

  /** The crashes up to the `i`th, it included, that lie in the window ending with it. */
  function InWindow(ts: seq<int>, i: nat, window: int): set<nat>
    requires i < |ts|
  {
    set j: nat | j <= i && ts[i] - window < ts[j]
  }

  /** The watchdog restarts after a crash exactly if it and those in its window are fewer than the limit. */
  lemma RestartsExactlyWhen(ts: seq<int>, c: Config, i: nat)
    requires Ordered(ts) && c.window > 0 && i < |ts|
    ensures Restarts(ts, c, i) <==> |InWindow(ts, i, c.window)| < c.limit
  {
    var upTo := ts[..i + 1];
    CrashListIsWindow(upTo, c);
    RecentCounts(upTo, ts[i] - c.window);
    assert After(upTo, ts[i] - c.window) == InWindow(ts, i, c.window);
  }

  /** The restarts scheduled in the window (a, a + window]. */
  function RestartsWithin(ts: seq<int>, c: Config, a: int): set<nat> {
    set i: nat | i < |ts| && a < ts[i] <= a + c.window && Restarts(ts, c, i)
  }

  lemma {:induction false} Largest(s: set<nat>) returns (m: nat)
    requires s != {}
    ensures m in s && forall x :: x in s ==> x <= m
    decreases s
  {
    var x :| x in s;
    m := x;
    if s != {x} {
      var k := Largest(s - {x});
      m := if k > x then k else x;
      forall y | y in s ensures y <= m { assert y == x || y in s - {x}; }
    }
  }

  /** Between explicit Starts every window of length CrashWindow holds fewer than CrashLimit watchdog restarts. */
  lemma WatchdogRateBound(ts: seq<int>, c: Config, a: int)
    requires Ordered(ts) && Normal(c)
    ensures |RestartsWithin(ts, c, a)| < c.limit
  {
    var s := RestartsWithin(ts, c, a);
    if s != {} {
      var m := Largest(s);
      var upTo, cut := ts[..m + 1], ts[m] - c.window;
      CrashListIsWindow(upTo, c);
      RecentCounts(upTo, cut);
      SmallerSet(s, After(upTo, cut));
    }
  }

  /** `k` crashes at the time `t`. */
  function Copies(k: nat, t: int): seq<int> { if k == 0 then [] else Copies(k - 1, t) + [t] }

  lemma {:induction false} CopiesHold(k: nat, t: int)
    ensures |Copies(k, t)| == k && forall i :: 0 <= i < k ==> Copies(k, t)[i] == t
  {
    if k > 0 { CopiesHold(k - 1, t); }
  }

  lemma {:induction false} CopiesPrefix(k: nat, n: nat, t: int)
    requires n <= k
    ensures |Copies(k, t)| == k && Copies(k, t)[..n] == Copies(n, t)
  {
    CopiesHold(k, t);
    if n < k { CopiesPrefix(k - 1, n, t); }
  }

  /** Crashes in the window of one another stay on the list; earlier ones are gone from it. */
  lemma {:induction false} CopiesList(before: seq<int>, k: nat, t: int, c: Config)
    requires Normal(c) && (forall i :: 0 <= i < |before| ==> before[i] <= t - c.window) && Ordered(before) && k > 0
    ensures CrashList(before + Copies(k, t), c) == Copies(k, t)
  {
    CopiesHold(k, t);
    var ts := before + Copies(k, t);
    CrashListIsWindow(ts, c);
    RecentCopies(before, k, t, t - c.window);
  }

  lemma {:induction false} RecentCopies(before: seq<int>, k: nat, t: int, cut: int)
    requires (forall i :: 0 <= i < |before| ==> before[i] <= cut) && cut < t
    ensures Recent(before + Copies(k, t), cut) == Copies(k, t)
    decreases |before| + k
  {
    var ts := before + Copies(k, t);
    var n := |ts| - 1;
    if k > 0 {
      RecentCopies(before, k - 1, t, cut);
      assert ts[..n] == before + Copies(k - 1, t) && ts[n] == t;
    } else if before != [] {
      RecentCopies(before[..n], 0, t, cut);
      assert ts == before && before[..n] + Copies(0, t) == before[..n];
    }
  }

  /** The bound is for half-open windows: a closed one can hold CrashLimit restarts. */
  lemma ClosedWindowReachesLimit(c: Config, a: int)
    requires Normal(c) && c.limit >= 2
    ensures var ts := [a] + Copies(c.limit - 1, a + c.window);
            && |ts| == c.limit && Ordered(ts) && (forall i :: 0 <= i < |ts| ==> a <= ts[i] <= a + c.window)
            && forall i :: 0 <= i < |ts| ==> Restarts(ts, c, i)
  {
    var t := a + c.window;
    var ts := [a] + Copies(c.limit - 1, t);
    CopiesHold(c.limit - 1, t);
    forall i | 0 <= i < |ts| ensures Restarts(ts, c, i) {
      CopiesPrefix(c.limit - 1, i, t);
      assert ts[..i + 1] == [a] + Copies(i, t);
      if i > 0 {
        CopiesList([a], i, t, c);
        CopiesHold(i, t);
      } else {
        assert [a] + Copies(0, t) == [a] && [a][..0] == [];
      }
    }
  }

  // ---- delays -------------------------------------------------------------------

  function Pow2(n: nat): nat { if n == 0 then 1 else 2 * Pow2(n - 1) }

  /** A 64-bit signed left shift. */
  function Shift(x: int, n: nat): int {
    var low := (x * Pow2(n)) % (2 * INT64);
    if low < INT64 then low else low - 2 * INT64
  }

  /** The delay before the restart that follows the `n`th crash in the list. */
  function Delay(c: Config, n: nat): int
    requires n >= 1
  {
    var d := Shift(c.initial, n - 1);
    if d > c.max then c.max else d
  }

  predicate Overflows(c: Config, n: nat)
    requires n >= 1
  {
    c.initial * Pow2(n - 1) >= INT64
  }

  /** While the shift does not overflow, delays are positive, capped, and do not decrease. */
  lemma DelaysGrow(c: Config, n: nat)
    requires Normal(c) && n >= 1 && !Overflows(c, n)
    ensures Delay(c, n) == if c.initial * Pow2(n - 1) < c.max then c.initial * Pow2(n - 1) else c.max
    ensures 0 < Delay(c, n) <= c.max && (n > 1 ==> Delay(c, n - 1) <= Delay(c, n))
  {
    PositiveProduct(c.initial, n - 1);
    ShiftedWithin(c.initial, n - 1);
    if n > 1 {
      Doubles(c.initial, n - 2);
      ShiftedWithin(c.initial, n - 2);
    }
  }

  lemma Doubles(x: int, n: nat)
    requires x > 0
    ensures x * Pow2(n + 1) == 2 * (x * Pow2(n)) && 0 < x * Pow2(n) < x * Pow2(n + 1)
  {
    PositiveProduct(x, n);
  }

  lemma PositiveProduct(x: int, n: nat)
    requires x > 0
    ensures x * Pow2(n) > 0
  {
    PowPositive(n);
  }

  /** The first shift that overflows reaches the sign bit and no further. */
  lemma FirstOverflowIsNegative(c: Config, n: nat)
    requires Normal(c) && n >= 2 && !Overflows(c, n - 1) && Overflows(c, n)
    ensures Delay(c, n) < 0
  {
    Doubles(c.initial, n - 2);
    HighWord(c.initial * Pow2(n - 1));
  }

  lemma HighWord(x: int)
    requires INT64 <= x < 2 * INT64
    ensures x % (2 * INT64) == x
  {
  }

  lemma {:induction false} OverflowStays(c: Config, k: nat, n: nat)
    requires Normal(c) && 1 <= k <= n && Overflows(c, k)
    ensures Overflows(c, n)
    decreases n
  {
    if k < n {
      OverflowStays(c, k, n - 1);
      Doubles(c.initial, n - 2);
    }
  }

  lemma {:induction false} FirstOverflow(c: Config, n: nat) returns (k: nat)
    requires Normal(c) && n >= 1 && Overflows(c, n)
    ensures 2 <= k <= n && Overflows(c, k) && !Overflows(c, k - 1)
    decreases n
  {
    assert Pow2(0) == 1;
    assert n != 1;
    k := n;
    if Overflows(c, n - 1) { k := FirstOverflow(c, n - 1); }
  }

  predicate PositiveTo(c: Config, n: nat) { forall k :: 1 <= k <= n ==> 0 < Delay(c, k) }

  /** The delays up to the `n`th are all positive exactly when the `n`th shift does not overflow. */
  lemma DelaysPositiveExactlyWhen(c: Config, n: nat)
    requires Normal(c) && n >= 1
    ensures PositiveTo(c, n) <==> !Overflows(c, n)
  {
    if Overflows(c, n) {
      var k := FirstOverflow(c, n);
      FirstOverflowIsNegative(c, k);
    } else {
      forall k | 1 <= k <= n ensures 0 < Delay(c, k) {
        if Overflows(c, k) { OverflowStays(c, k, n); }
        DelaysGrow(c, k);
      }
    }
  }

  /** The list after the crash at place `i`. */
  function ListAt(ts: seq<int>, c: Config, i: nat): seq<int>
    requires i < |ts|
  {
    CrashList(ts[..i + 1], c)
  }

  /** Every restart the watchdog ever schedules waits for a positive delay. */
  ghost predicate AlwaysWaits(c: Config) {
    forall ts: seq<int>, i: nat ::
      Ordered(ts) && i < |ts| && Restarts(ts, c, i) ==> |ListAt(ts, c, i)| > 0 && 0 < Delay(c, |ListAt(ts, c, i)|)
  }

  lemma ListNotEmpty(ts: seq<int>, c: Config, i: nat)
    requires i < |ts|
    ensures |ListAt(ts, c, i)| > 0 && (Restarts(ts, c, i) <==> |ListAt(ts, c, i)| < c.limit)
  {
  }

  lemma AllAtOnce(c: Config, k: nat)
    requires Normal(c) && k > 0
    ensures CrashList(Copies(k, 0), c) == Copies(k, 0)
  {
    var none: seq<int> := [];
    CopiesList(none, k, 0, c);
    assert none + Copies(k, 0) == Copies(k, 0);
  }

  /** Every length below the limit is reached: by crashes at one time. */
  lemma LengthIsReached(c: Config, k: nat)
    requires Normal(c) && 1 <= k < c.limit
    ensures |Copies(k, 0)| == k && Ordered(Copies(k, 0))
    ensures Restarts(Copies(k, 0), c, k - 1) && |ListAt(Copies(k, 0), c, k - 1)| == k
  {
    CopiesHold(k, 0);
    AllAtOnce(c, k);
    assert Copies(k, 0)[..k - 1 + 1] == Copies(k, 0);
    ListNotEmpty(Copies(k, 0), c, k - 1);
  }

  /** That holds exactly when the shift of the longest list below the limit does not overflow. */
  lemma AlwaysWaitsExactlyWhen(c: Config)
    requires Normal(c)
    ensures AlwaysWaits(c) <==> c.limit < 2 || !Overflows(c, c.limit - 1)
  {
    if c.limit < 2 || !Overflows(c, c.limit - 1) {
      if c.limit >= 2 { DelaysPositiveExactlyWhen(c, c.limit - 1); }
      forall ts: seq<int>, i: nat | Ordered(ts) && i < |ts| && Restarts(ts, c, i)
        ensures |ListAt(ts, c, i)| > 0 && 0 < Delay(c, |ListAt(ts, c, i)|)
      {
        ListNotEmpty(ts, c, i);
      }
    } else {
      DelaysPositiveExactlyWhen(c, c.limit - 1);
      var k: nat :| 1 <= k <= c.limit - 1 && !(0 < Delay(c, k));
      LengthIsReached(c, k);
      var ts := Copies(k, 0);
      assert !(0 < Delay(c, |ListAt(ts, c, k - 1)|));
    }
  }

  /** The Agent runs with the defaults: one second, at most thirty, five crashes in ten minutes. */
  const Defaults := Config(1_000_000_000, 30_000_000_000, 5, 600_000_000_000)

  lemma DefaultsAlwaysWait()
    ensures Normal(Defaults) && AlwaysWaits(Defaults)
  {
    assert Pow2(3) == 8;
    AlwaysWaitsExactlyWhen(Defaults);
  }

  lemma ShiftedWithin(x: int, n: nat)
    requires 0 <= x * Pow2(n) < INT64
    ensures Shift(x, n) == x * Pow2(n)
  {
    WithinWord(x * Pow2(n));
  }

  lemma {:induction false} PowPositive(n: nat)
    ensures Pow2(n) > 0
  {
    if n > 0 { PowPositive(n - 1); }
  }

  lemma WithinWord(x: int)
    requires 0 <= x < INT64
    ensures x % (2 * INT64) == x
  {
  }

  /** With one second to begin with the 35th shift is the first to overflow, and the watchdog does not wait at all. */
  lemma DelayCanCollapse(c: Config)
    requires Normal(c) && c.initial == 1_000_000_000
    ensures !Overflows(c, 34) && Overflows(c, 35) && Delay(c, 35) < 0
  {
    assert Pow2(4) == 16;
    assert Pow2(8) == 256 by { assert Pow2(8) == 16 * Pow2(4); }
    PowAdd(8, 8);
    PowAdd(16, 16);
    PowAdd(32, 2);
    assert Pow2(2) == 4;
    assert Pow2(34) == 17_179_869_184;
    assert Pow2(34) == 2 * Pow2(33);
  }

  lemma {:induction false} PowAdd(a: nat, b: nat)
    ensures Pow2(a + b) == Pow2(a) * Pow2(b)
  {
    if a > 0 { PowAdd(a - 1, b); }
  }

  // ---- the list, filtered in place ------------------------------------------------

  /**
   Keeps the crashes after `cut` in the slice's own array and appends `now`; `n` crashes
   are stored before, `k` after.
   */
  method RecordCrash(a: array<int>, n: nat, now: int, c: Config) returns (k: nat)
    requires n < a.Length
    modifies a
    ensures k <= n + 1 && a[..k] == WithCrash(old(a[..n]), now, c)
  {
    var cut := now - c.window;
    k := 0;
    for i := 0 to n
      invariant k <= i
      invariant a[..k] == Recent(old(a[..n])[..i], cut)
      invariant forall j :: i <= j < a.Length ==> a[j] == old(a[j])
    {
      ghost var was := old(a[..n]);
      assert was[..i + 1][..i] == was[..i] && a[i] == was[i];
      if a[i] > cut {
        a[k] := a[i];
        k := k + 1;
      }
    }
    assert old(a[..n])[..n] == old(a[..n]);
    a[k] := now;
    k := k + 1;
  }
}
