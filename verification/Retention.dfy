/** Which Controller backups automatic pruning keeps. */
module Retention {
  import opened Common

  datatype Class = Hourly | Manual | PreRestore

  datatype Backup = Backup(id: nat, created: int, kind: Class)

  const DAY: int := 86_400_000_000_000

  /** The UTC day of a time in nanoseconds. */
  function Day(b: Backup): int { b.created / DAY }

  predicate Newer(a: Backup, b: Backup) { a.created > b.created || (a.created == b.created && a.id > b.id) }

  predicate Distinct(s: seq<Backup>) { forall i, j :: 0 <= i < j < |s| ==> s[i].id != s[j].id }

  // ---- what is kept, stated without an order ---------------------------------------

  /** The hourly backups newer than `x`. */
  function NewerHourly(all: set<Backup>, x: Backup): set<Backup> { set y | y in all && y.kind == Hourly && Newer(y, x) }

  function Days(s: set<Backup>): set<int> { set y | y in s :: Day(y) }

  /**
   Every backup that is not hourly, the `h` newest hourly ones, and the newest
   hourly one of each of the `d` newest days that have any.
   */
  predicate Keeps(all: set<Backup>, x: Backup, h: int, d: int) {
    var newer := NewerHourly(all, x);
    x.kind != Hourly || |newer| < h || (Day(x) !in Days(newer) && |Days(newer)| < d)
  }

  function Kept(all: set<Backup>, h: int, d: int): set<Backup> { set x | x in all && Keeps(all, x, h, d) }

  function Elements(s: seq<Backup>): set<Backup> { set x | x in s }

  /** Pruning what was pruned removes nothing more. */
  lemma PruningIsIdempotent(all: set<Backup>, h: int, d: int)
    ensures Kept(Kept(all, h, d), h, d) == Kept(all, h, d)
  {
    var kept := Kept(all, h, d);
    forall x | x in kept ensures Keeps(kept, x, h, d) {
      SmallerSet(NewerHourly(kept, x), NewerHourly(all, x));
      SmallerSet(Days(NewerHourly(kept, x)), Days(NewerHourly(all, x)));
    }
  }

  /** A newer backup never makes room for an older one. */
  lemma NewerPushOut(all: set<Backup>, b: Backup, h: int, d: int)
    requires forall x :: x in all ==> Newer(b, x)
    ensures Kept(all + {b}, h, d) <= Kept(all, h, d) + {b}
  {
    forall x | x in all && Keeps(all + {b}, x, h, d) ensures Keeps(all, x, h, d) {
      SmallerSet(NewerHourly(all, x), NewerHourly(all + {b}, x));
      SmallerSet(Days(NewerHourly(all, x)), Days(NewerHourly(all + {b}, x)));
    }
  }

  // ---- how many are kept ------------------------------------------------------------------

  /** `first` orders the elements of `s` one after another. */
  ghost predicate Orders<T(!new)>(s: set<T>, first: (T, T) -> bool) {
    && (forall x, y :: x in s && y in s && x != y ==> first(x, y) || first(y, x))
    && (forall x, y :: x in s && y in s && first(x, y) ==> !first(y, x))
    && (forall x, y, z :: x in s && y in s && z in s && first(x, y) && first(y, z) ==> first(x, z))
  }

  /** Those that come before `x`. */
  ghost function Ahead<T(!new)>(s: set<T>, first: (T, T) -> bool, x: T): set<T> { set y | y in s && first(y, x) }

  /** Those with fewer than `k` before them. */
  ghost function Leading<T(!new)>(s: set<T>, first: (T, T) -> bool, k: int): set<T> {
    set x | x in s && |Ahead(s, first, x)| < k
  }

  lemma {:induction false} LastOf<T(!new)>(s: set<T>, first: (T, T) -> bool) returns (m: T)
    requires s != {} && Orders(s, first)
    ensures m in s && forall x :: x in s && x != m ==> first(x, m)
    decreases s
  {
    var x :| x in s;
    if s == {x} {
      m := x;
    } else {
      var k := LastOf(s - {x}, first);
      m := if first(x, k) then k else x;
      assert first(x, k) || first(k, x);
    }
  }

  /** Exactly `k` lead, or all there are. */
  lemma {:induction false} LeadingCount<T(!new)>(s: set<T>, first: (T, T) -> bool, k: nat)
    requires Orders(s, first)
    ensures |Leading(s, first, k)| == if k < |s| then k else |s|
    decreases s
  {
    if s != {} {
      var m := LastOf(s, first);
      var rest := s - {m};
      LeadingCount(rest, first, k);
      assert Ahead(s, first, m) == rest;
      forall x | x in rest ensures Ahead(s, first, x) == Ahead(rest, first, x) { }
      assert Leading(s, first, k) == Leading(rest, first, k) + if |rest| < k then {m} else {};
    }
  }

  function Hourlies(all: set<Backup>): set<Backup> { set x | x in all && x.kind == Hourly }

  predicate DistinctIds(all: set<Backup>) { forall x, y :: x in all && y in all && x.id == y.id ==> x == y }

  /** Newest first. */
  ghost function ByAge(): (Backup, Backup) -> bool {
    (x: Backup, y: Backup) => x.created > y.created || (x.created == y.created && x.id > y.id)
  }

  /** A day is the 24 hours that a time in nanoseconds falls into. */
  lemma DayIs(b: Backup)
    ensures Day(b) * (24 * 3600 * 1_000_000_000) <= b.created < (Day(b) + 1) * (24 * 3600 * 1_000_000_000)
  {
  }

  ghost function Latest(): (int, int) -> bool { (a: int, b: int) => a > b }

  /** The hourly backup is the newest of its UTC day, and that is one of the `d` latest days that have any. */
  ghost predicate DailyPoint(all: set<Backup>, x: Backup, d: int) {
    && x in Hourlies(all) && Day(x) in Leading(Days(Hourlies(all)), Latest(), d)
    && forall y :: y in Hourlies(all) && Day(y) == Day(x) && y != x ==> ByAge()(x, y)
  }

  lemma LaterDays(all: set<Backup>, x: Backup)
    requires x in Hourlies(all) && forall y :: y in Hourlies(all) && Day(y) == Day(x) ==> !Newer(y, x)
    ensures Days(NewerHourly(all, x)) == Ahead(Days(Hourlies(all)), Latest(), Day(x))
  {
    forall day | day in Ahead(Days(Hourlies(all)), Latest(), Day(x)) ensures day in Days(NewerHourly(all, x)) {
      var y :| y in Hourlies(all) && Day(y) == day;
      assert y in NewerHourly(all, x);
    }
    forall day | day in Days(NewerHourly(all, x)) ensures day in Ahead(Days(Hourlies(all)), Latest(), Day(x)) {
      var y :| y in NewerHourly(all, x) && Day(y) == day;
      assert y in Hourlies(all) && Day(y) >= Day(x);
    }
  }

  /**
   Kept are all backups that are not hourly, the `h` newest hourly ones or as many as there
   are, and the newest one of each of the `d` latest days or as many as there are.
   */
  lemma KeptInNumbers(all: set<Backup>, h: nat, d: nat)
    requires DistinctIds(all)
    ensures forall x :: x in Kept(all, h, d) <==>
              x in all && (x.kind in {Manual, PreRestore} || x in Leading(Hourlies(all), ByAge(), h)
                           || DailyPoint(all, x, d))
    ensures |Leading(Hourlies(all), ByAge(), h)| == if h < |Hourlies(all)| then h else |Hourlies(all)|
    ensures var days := Days(Hourlies(all)); |Leading(days, Latest(), d)| == if d < |days| then d else |days|
  {
    LeadingCount(Hourlies(all), ByAge(), h);
    LeadingCount(Days(Hourlies(all)), Latest(), d);
    forall x | x in Hourlies(all) ensures x in Kept(all, h, d) <==>
                                          x in Leading(Hourlies(all), ByAge(), h) || DailyPoint(all, x, d) {
      assert NewerHourly(all, x) == Ahead(Hourlies(all), ByAge(), x);
      if forall y :: y in Hourlies(all) && Day(y) == Day(x) ==> !Newer(y, x) {
        LaterDays(all, x);
        forall y | y in Hourlies(all) && Day(y) == Day(x) && y != x ensures Newer(x, y) { assert x.id != y.id; }
        assert Day(x) !in Days(NewerHourly(all, x));
      } else {
        var y :| y in Hourlies(all) && Day(y) == Day(x) && Newer(y, x);
        assert y in NewerHourly(all, x);
      }
    }
  }

  // ---- sorting -------------------------------------------------------------------------

  predicate SortedTo(s: seq<Backup>, n: nat)
    requires n <= |s|
  {
    forall i, j :: 0 <= i < j < n ==> Newer(s[i], s[j])
  }

  /** Sorted but for the element at `j`, which is newer than all that follow it up to `n`. */
  predicate SortedBut(s: seq<Backup>, j: nat, n: nat)
    requires j < n <= |s|
  {
    && (forall i, k :: 0 <= i < k < n && i != j && k != j ==> Newer(s[i], s[k]))
    && (forall k :: j < k < n ==> Newer(s[j], s[k]))
  }

  /** Swapping neighbours keeps the elements. */
  lemma SwapKeeps(s: seq<Backup>, j: nat)
    requires 0 < j < |s|
    ensures multiset(Swapped(s, j)) == multiset(s)
  {
  }

  lemma DistinctKept(s: seq<Backup>, t: seq<Backup>)
    requires multiset(s) == multiset(t) && Distinct(s)
    ensures Distinct(t)
  {
    forall i, j | 0 <= i < j < |t| ensures t[i].id != t[j].id {
      if t[i].id == t[j].id {
        SameElement(s, t, i);
        SameElement(s, t, j);
        var a :| 0 <= a < |s| && s[a] == t[i];
        var b :| 0 <= b < |s| && s[b] == t[j];
        assert a == b;
        Twice(t, i, j);
        Once(s, a);
      }
    }
  }

  lemma SameElement(s: seq<Backup>, t: seq<Backup>, i: nat)
    requires multiset(s) == multiset(t) && i < |t|
    ensures exists a :: 0 <= a < |s| && s[a] == t[i]
  {
    assert t[i] in multiset(t);
    assert t[i] in multiset(s);
  }

  lemma Twice(t: seq<Backup>, i: nat, j: nat)
    requires i < j < |t| && t[i] == t[j]
    ensures multiset(t)[t[i]] >= 2
  {
    assert t == t[..j] + t[j..];
    assert t[i] in t[..j] && t[j] in t[j..];
  }

  lemma Once(s: seq<Backup>, a: nat)
    requires Distinct(s) && a < |s|
    ensures multiset(s)[s[a]] == 1
  {
    assert s == s[..a] + [s[a]] + s[a + 1..];
    assert s[a] !in s[..a] && s[a] !in s[a + 1..];
  }

  function Swapped(s: seq<Backup>, j: nat): seq<Backup>
    requires 0 < j < |s|
  {
    s[j - 1 := s[j]][j := s[j - 1]]
  }

  /** The misplaced element moves one place on. */
  lemma MovedOn(s: seq<Backup>, j: nat, n: nat)
    requires 0 < j < n <= |s| && SortedBut(s, j, n) && Distinct(s) && !Newer(s[j - 1], s[j])
    ensures SortedBut(Swapped(s, j), j - 1, n)
  {
    assert s[j - 1].id != s[j].id;
  }

  lemma InPlace(s: seq<Backup>, j: nat, n: nat)
    requires j < n <= |s| && SortedBut(s, j, n) && (j > 0 ==> Newer(s[j - 1], s[j]))
    ensures SortedTo(s, n)
  {
    forall i, k | 0 <= i < k < n ensures Newer(s[i], s[k]) {
      if k == j && i < j - 1 { assert Newer(s[i], s[j - 1]); }
    }
  }

  predicate Permuted(s: seq<Backup>, t: seq<Backup>) { multiset(s) == multiset(t) && Distinct(s) && Distinct(t) }

  lemma SwapPermutes(s: seq<Backup>, j: nat, was: seq<Backup>)
    requires 0 < j < |s| && Permuted(s, was)
    ensures Permuted(Swapped(s, j), was)
  {
    SwapKeeps(s, j);
    DistinctKept(s, Swapped(s, j));
  }

  /** sortManifests: insertion sort in place, newest first. */
  method SortManifests(a: array<Backup>)
    requires Distinct(a[..])
    modifies a
    ensures SortedTo(a[..], a.Length) && multiset(a[..]) == multiset(old(a[..])) && Distinct(a[..])
  {
    ghost var was := a[..];
    var i := 1;
    while i < a.Length
      invariant 1 <= i && (a.Length > 0 ==> i <= a.Length) && SortedTo(a[..], if i <= a.Length then i else 0)
      invariant Permuted(a[..], was)
    {
      var j := i;
      while j > 0
        invariant 0 <= j <= i && SortedBut(a[..], j, i + 1) && Permuted(a[..], was)
      {
        if Newer(a[j - 1], a[j]) { break; }
        MovedOn(a[..], j, i + 1);
        SwapPermutes(a[..], j, was);
        ghost var s := Swapped(a[..], j);
        a[j - 1], a[j] := a[j], a[j - 1];
        assert a[..] == s;
        j := j - 1;
      }
      InPlace(a[..], j, i + 1);
      i := i + 1;
    }
  }

  // ---- the rule ----------------------------------------------------------------------------

  /** The hourly backups among the first `n`. */
  function HourlyTo(s: seq<Backup>, n: nat): set<Backup>
    requires n <= |s|
  {
    set i | 0 <= i < n && s[i].kind == Hourly :: s[i]
  }

  lemma NewerArePrefix(s: seq<Backup>, n: nat)
    requires n < |s| && SortedTo(s, |s|)
    ensures NewerHourly(Elements(s), s[n]) == HourlyTo(s, n)
  {
    forall y | y in NewerHourly(Elements(s), s[n]) ensures y in HourlyTo(s, n) {
      var k :| 0 <= k < |s| && s[k] == y;
      assert k > n ==> Newer(s[n], y);
    }
  }

  method Retained(a: array<Backup>, h: int, d: int) returns (result: set<Backup>)
    requires Distinct(a[..])
    modifies a
    ensures result == Kept(Elements(old(a[..])), h, d)
  {
    SortManifests(a);
    assert Elements(a[..]) == Elements(old(a[..])) by {
      assert forall x :: x in old(a[..]) <==> x in multiset(old(a[..]));
      assert forall x :: x in a[..] <==> x in multiset(a[..]);
    }
    result := Select(a[..], h, d);
  }

  /** The counters once `n` hourly points and the days `ds` were seen: points kept, and days represented. */
  predicate Counted(n: nat, ds: set<int>, h: int, d: int, hourly: int, days: set<int>) {
    && hourly == (if n < h then n else if h > 0 then h else 0)
    && (if |ds| <= d then days == ds else |days| >= d)
  }

  function KeptTo(s: seq<Backup>, n: nat, h: int, d: int): set<Backup>
    requires n <= |s|
  {
    set k | 0 <= k < n && Keeps(Elements(s), s[k], h, d) :: s[k]
  }

  /** The pass over the sorted backups. */
  method Select(s: seq<Backup>, h: int, d: int) returns (result: set<Backup>)
    requires SortedTo(s, |s|)
    ensures result == Kept(Elements(s), h, d)
  {
    var hourly := 0;
    var days: set<int> := {};
    result := {};
    for i := 0 to |s|
      invariant Counted(|HourlyTo(s, i)|, Days(HourlyTo(s, i)), h, d, hourly, days)
      invariant result == KeptTo(s, i, h, d)
    {
      var item := s[i];
      KeepsByCount(s, i, h, d, hourly, days);
      CountStep(|HourlyTo(s, i)|, Days(HourlyTo(s, i)), h, d, hourly, days, Day(item));
      PrefixGrows(s, i);
      KeptGrows(s, i, h, d);
      if item.kind != Hourly {
        result := result + {item};
        continue;
      }
      if hourly < h {
        result := result + {item};
        hourly := hourly + 1;
      }
      if |days| < d && Day(item) !in days {
        result := result + {item};
        days := days + {Day(item)};
      }
    }
  }

  /** One more hourly backup counts when there is room. */
  lemma CountStep(n: nat, ds: set<int>, h: int, d: int, hourly: int, days: set<int>, day: int)
    requires Counted(n, ds, h, d, hourly, days)
    ensures Counted(n + 1, ds + {day}, h, d, if hourly < h then hourly + 1 else hourly,
                    if |days| < d && day !in days then days + {day} else days)
  {
    if day in ds { assert ds + {day} == ds; } else { assert |ds + {day}| == |ds| + 1; }
  }

  lemma KeptGrows(s: seq<Backup>, i: nat, h: int, d: int)
    requires i < |s|
    ensures KeptTo(s, i + 1, h, d) == KeptTo(s, i, h, d) + (if Keeps(Elements(s), s[i], h, d) then {s[i]} else {})
  {
  }

  /** The counters decide as the rule does. */
  lemma KeepsByCount(s: seq<Backup>, i: nat, h: int, d: int, hourly: int, days: set<int>)
    requires i < |s| && SortedTo(s, |s|) && Counted(|HourlyTo(s, i)|, Days(HourlyTo(s, i)), h, d, hourly, days)
    ensures Keeps(Elements(s), s[i], h, d) <==>
            s[i].kind != Hourly || hourly < h || (|days| < d && Day(s[i]) !in days)
  {
    NewerArePrefix(s, i);
  }

  lemma PrefixGrows(s: seq<Backup>, i: nat)
    requires i < |s| && SortedTo(s, |s|)
    ensures s[i].kind != Hourly ==> HourlyTo(s, i + 1) == HourlyTo(s, i)
    ensures s[i].kind == Hourly ==> |HourlyTo(s, i + 1)| == |HourlyTo(s, i)| + 1
    ensures s[i].kind == Hourly ==> Days(HourlyTo(s, i + 1)) == Days(HourlyTo(s, i)) + {Day(s[i])}
  {
    assert HourlyTo(s, i + 1) == HourlyTo(s, i) + (if s[i].kind == Hourly then {s[i]} else {});
    assert s[i] !in HourlyTo(s, i);
  }

  /** Pruning removes backups one by one and may be interrupted; it never removes one that is to be kept. */
  method Prune(values: seq<Backup>, h: int, d: int) returns (ok: bool, left: set<Backup>)
    requires Distinct(values)
    ensures Kept(Elements(values), h, d) <= left <= Elements(values)
    ensures ok ==> left == Kept(Elements(values), h, d)
  {
    var a := new Backup[|values|](i requires 0 <= i < |values| => values[i]);
    assert a[..] == values;
    var retained := Retained(a, h, d);
    left := Elements(values);
    for i := 0 to |values|
      invariant retained <= left <= Elements(values)
      invariant forall x :: x in left && x !in retained ==> x in values[i..]
    {
      if values[i] in retained { continue; }
      var removed: bool := *;
      if !removed { return false, left; }
      left := left - {values[i]};
    }
    ok := true;
  }
}
