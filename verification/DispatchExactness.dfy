/**
 The two timing hypotheses are exact: each forbids a step exactly where some run
 after it, itself within the hypotheses, ends idle and current before the Agent has
 settled what was sent.
 */
module DispatchExactness {
  import opened Common
  import opened Guards
  import opened Sessions
  import opened Dispatch
  import opened DispatchCausality

  /** No lawful run from here ends idle on an action that is not settled. */
  ghost predicate SafeFrom(w: World) { forall es :: Along(Lawful, w, es) ==> IdleIsSettled(Final(w, es)) }

  lemma InvIsSafe(w: World)
    requires Inv(w)
    ensures SafeFrom(w)
  {
    forall es | Along(Lawful, w, es) ensures IdleIsSettled(Final(w, es)) {
      RunKeeps(w, es);
      InvSettles(Final(w, es));
    }
  }

  // ---- continuations ----------------------------------------------------------------

  predicate Plain(es: seq<Event>) { forall e :: e in es ==> !e.Deadline? && !e.Reserve? }

  lemma {:induction false} PlainIsLawful(w: World, es: seq<Event>)
    requires Plain(es)
    ensures Along(Lawful, w, es)
    decreases |es|
  {
    if es != [] { PlainIsLawful(Next(w, es[0]), es[1..]); }
  }

  /** `es` leads from `from` to `to` without a deadline or a reservation. */
  predicate Leads(from: World, es: seq<Event>, to: World) { Plain(es) && Final(from, es) == to }

  lemma Go(from: World, es: seq<Event>, w: World, e: Event) returns (fs: seq<Event>)
    requires Leads(from, es, w) && !e.Deadline? && !e.Reserve?
    ensures Leads(from, fs, Next(w, e))
  {
    OneMore(Lawful, from, es, e);
    fs := es + [e];
  }

  function HeardTo(w: World, n: nat): World { w.(delivered := n, done := if w.done < n then n else w.done) }

  /** Replies up to place `n` come in and are lost. */
  lemma {:induction false} Hear(from: World, es: seq<Event>, w: World, n: nat) returns (fs: seq<Event>)
    requires Leads(from, es, w) && w.delivered <= n <= |w.s.sent| && w.delivered <= w.done <= |w.s.sent|
    ensures Leads(from, fs, HeardTo(w, n))
    decreases n - w.delivered
  {
    fs := es;
    if w.delivered < n {
      var p := w;
      if w.done == w.delivered {
        fs := Go(from, fs, w, Process);
        p := w.(done := w.done + 1);
      }
      fs := Go(from, fs, p, Deliver(Lost));
      fs := Hear(from, fs, p.(delivered := p.delivered + 1), n);
    }
  }

  function ObservedAt(w: World, n: nat, mark: nat): World {
    HeardTo(w, n + 1).(b := Observed(w.b, w.b.epoch, mark), past := CoveredTo(w.past, mark))
  }

  /** Then the snapshot at place `n` comes in and is observed. */
  lemma HearSnapshot(from: World, es: seq<Event>, w: World, n: nat, mark: nat) returns (fs: seq<Event>)
    requires Leads(from, es, w) && w.delivered <= n < |w.s.sent| && w.delivered <= w.done <= |w.s.sent|
    requires w.s.sent[n] == Snapshot(mark) && w.b.connected && w.b.observed <= mark
    ensures Leads(from, fs, ObservedAt(w, n, mark))
  {
    fs := Hear(from, es, w, n);
    var h := HeardTo(w, n);
    if h.done == n {
      fs := Go(from, fs, h, Process);
      h := h.(done := n + 1);
    }
    fs := Go(from, fs, h, Deliver(Got(Uncertain)));
  }

  /** An idle world with an action neither answered nor covered, reached plainly, is where safety ends. */
  lemma Unsafe(from: World, es: seq<Event>, w: World, i: nat)
    requires Leads(from, es, w) && Idle(w.b) && i < |w.s.sent| && w.s.sent[i].Run?
    requires w.s.sent[i].sequence !in w.past.answered && w.s.sent[i].sequence > w.past.covered
    ensures !SafeFrom(from)
  {
    PlainIsLawful(from, es);
    assert !SettledAt(w, i);
    assert !IdleIsSettled(Final(from, es));
  }

  // ---- the deadline --------------------------------------------------------------------

  /** Once the guard is gone a snapshot from before the action makes the Host idle too early. */
  lemma AheadIsUnsafe(w: World, q: nat)
    requires Inv(w) && Strikes(w, q) && SnapshotAhead(w.s.sent, w.delivered)
    ensures !SafeFrom(Next(w, Deadline(q)))
  {
    var s, n := w.s.sent, Next(w, Deadline(q));
    var j, k :| 0 <= j < k < |s| && w.delivered <= j && s[j].Snapshot? && s[k].Run?;
    assert StampAt(s, j, w.b.epoch) && StampAt(s, k, w.b.epoch);
    RunsGrow(s, w.delivered, j);
    RunsGrow(s, j, k);
    NoneLeft(w.b, w.expiring[q]);
    assert Leads(n, [], n);
    var es := HearSnapshot(n, [], n, j, s[j].mark);
    StaysEmpty(n.b, s[j].mark);
    Unsafe(n, es, ObservedAt(n, j, s[j].mark), k);
  }

  /** The only guard of the epoch goes. */
  lemma NoneLeft(b: Book, key: Key)
    requires OnePerEpoch(b.inFlight) && key in b.inFlight && key.epoch == b.epoch
    ensures !HasInFlight(Clear(b, key), b.epoch)
  {
  }

  lemma StaysEmpty(b: Book, mark: nat)
    requires !HasInFlight(b, b.epoch) && b.connected && b.observed <= mark
    ensures Idle(Observed(b, b.epoch, mark))
  {
  }

  /** A worker left without its guard sends all the same, on an observation made current again. */
  lemma ReservationIsUnsafe(w: World, q: nat, v: nat)
    requires Inv(w) && Strikes(w, q) && !w.s.revoked && v in w.workers && w.workers[v] == Reserved(w.expiring[q])
    ensures !SafeFrom(Next(w, Deadline(q)))
  {
    var key, n, last := w.expiring[q], Next(w, Deadline(q)), Last(w.s.sent);
    RunsGrow(w.s.sent, w.delivered, |w.s.sent|);
    NoneLeft(w.b, key);
    assert Leads(n, [], n);
    var es := Go(n, [], n, RequestSnapshot);
    var r := n.(s := Requested(n.s));
    es := HearSnapshot(n, es, r, |w.s.sent|, last);
    StaysEmpty(r.b, last);
    var o := ObservedAt(r, |w.s.sent|, last);
    es := Go(n, es, o, Send(v));
    var z := Next(o, Send(v));
    assert z.s.sent[|w.s.sent| + 1] == Run(key, last + 1);
    Unsafe(n, es, z, |w.s.sent| + 1);
  }

  /**
   A result deadline is harmless in every lawful run after it exactly when it does
   not release the guard of a stale observation while a snapshot from before the
   last action is under way or a worker has yet to send under that guard.
   */
  lemma DeadlineIsSafeExactlyWhen(w: World, q: nat)
    requires Inv(w)
    ensures SafeFrom(Next(w, Deadline(q))) <==> !Strikes(w, q)
  {
    if !Strikes(w, q) {
      StepKeeps(w, Deadline(q));
      InvIsSafe(Next(w, Deadline(q)));
    } else if SnapshotAhead(w.s.sent, w.delivered) {
      AheadIsUnsafe(w, q);
    } else {
      var v :| v in w.workers && w.workers[v] == Reserved(w.expiring[q]);
      ReservationIsUnsafe(w, q, v);
    }
  }

  // ---- the reservation ------------------------------------------------------------------

  /** The new action is sent behind a snapshot request; then the old worker records its own sequence. */
  lemma RecordedOver(w: World, v: nat, key: Key, u: nat) returns (es: seq<Event>, z: World)
    requires Inv(w) && v !in w.workers && MayReserve(w, key)
    requires u in w.workers && w.workers[u].Recording? && w.workers[u].key == key
    ensures Leads(Next(w, Reserve(v, key)), es, z)
    ensures z.s.sent == w.s.sent + [Snapshot(Last(w.s.sent)), Run(key, Last(w.s.sent) + 1)]
    ensures z.past == w.past && z.delivered == w.delivered && z.done == w.done
    ensures z.b == Recorded(w.b.(inFlight := w.b.inFlight[key := 0]), key, w.workers[u].sequence)
  {
    var n := Next(w, Reserve(v, key));
    assert Leads(n, [], n);
    es := Go(n, [], n, RequestSnapshot);
    z := Next(n, RequestSnapshot);
    es := Go(n, es, z, Send(v));
    z := Next(z, Send(v));
    assert z.s.sent == w.s.sent + [Snapshot(Last(w.s.sent)), Run(key, Last(w.s.sent) + 1)];
    es := Go(n, es, z, Record(u));
    z := Next(z, Record(u));
  }

  lemma RepeatIsUnsafe(w: World, v: nat, key: Key, u: nat)
    requires Inv(w) && v !in w.workers && MayReserve(w, key)
    requires u in w.workers && w.workers[u].Recording? && w.workers[u].key == key
    ensures !SafeFrom(Next(w, Reserve(v, key)))
  {
    var last, n := Last(w.s.sent), Next(w, Reserve(v, key));
    var q, place := w.workers[u].sequence, |w.s.sent|;
    RunsGrow(w.s.sent, w.delivered, |w.s.sent|);
    assert WorkerFits(w.b, last, Settled(w.past, last), w.workers[u], true);
    var es, z := RecordedOver(w, v, key, u);
    assert z.s.sent[place] == Snapshot(last) && z.s.sent[place + 1] == Run(key, last + 1);
    if w.b.observed >= q {
      assert z.b == Clear(w.b.(inFlight := w.b.inFlight[key := 0]), key);
      Unsafe(n, es, z, place + 1);
    } else {
      assert z.b == w.b.(inFlight := w.b.inFlight[key := q]);
      es := HearSnapshot(n, es, z, place, last);
      var o := ObservedAt(z, place, last);
      assert Idle(o.b);
      Unsafe(n, es, o, place + 1);
    }
  }

  /**
   A reservation is harmless in every lawful run after it exactly when no worker has
   yet to record the sequence of an earlier action with the same key.
   */
  lemma ReserveIsSafeExactlyWhen(w: World, v: nat, key: Key)
    requires Inv(w) && v !in w.workers && MayReserve(w, key)
    ensures SafeFrom(Next(w, Reserve(v, key))) <==> !StillRecording(w, key)
  {
    if !StillRecording(w, key) {
      StepKeeps(w, Reserve(v, key));
      InvIsSafe(Next(w, Reserve(v, key)));
    } else {
      var u :| u in w.workers && w.workers[u].Recording? && w.workers[u].key == key;
      RepeatIsUnsafe(w, v, key, u);
    }
  }

  // ---- two runs from the start -------------------------------------------------------------

  ghost predicate IdleUnprocessed(w: World) {
    Idle(w.b) && exists i :: w.done <= i < |w.s.sent| && w.s.sent[i].Run?
  }

  lemma Then(P: (World, Event) -> bool, es: seq<Event>, w: World, e: Event) returns (fs: seq<Event>, n: World)
    requires w == Final(Initial, es) && Along(P, Initial, es) && P(w, e)
    ensures n == Final(Initial, fs) && Along(P, Initial, fs) && n == Next(w, e)
  {
    OneMore(P, Initial, es, e);
    fs, n := es + [e], Next(w, e);
  }

  function At(b: Book, s: Session, workers: map<nat, Worker>, n: nat): World {
    World(b, s, map[], workers, n, n, Past({}, 0))
  }

  /** A snapshot reaches a connected Host with no guards. */
  lemma SnapshotArrives(P: (World, Event) -> bool, es: seq<Event>, w: World) returns (fs: seq<Event>, n: World)
    requires w == Final(Initial, es) && Along(P, Initial, es)
    requires forall w: World, e: Event :: !e.Deadline? && !e.Reserve? ==> P(w, e)
    requires w.b == Book(1, true, false, 0, map[]) && w.done == w.delivered < |w.s.sent|
             && w.s.sent[w.done] == Snapshot(0)
    ensures n == Final(Initial, fs) && Along(P, Initial, fs)
    ensures n == w.(b := Book(1, true, true, 0, map[]), done := w.done + 1, delivered := w.done + 1)
  {
    assert Resolved(map[], 1, 0) == map[];
    fs, n := Then(P, es, w, Process);
    assert n == w.(done := w.done + 1);
    fs, n := Then(P, fs, n, Deliver(Got(Executed)));
  }

  /** The bootstrap snapshot of the first epoch arrived and a later one is requested. */
  lemma Bootstrapped(P: (World, Event) -> bool) returns (es: seq<Event>, w: World)
    requires forall w: World, e: Event :: !e.Deadline? && !e.Reserve? ==> P(w, e)
    ensures w == Final(Initial, es) && Along(P, Initial, es)
    ensures w == At(Book(1, true, true, 0, map[]), Session(false, 0, map[], [Snapshot(0), Snapshot(0)]), map[], 1)
  {
    var b := Book(1, true, false, 0, map[]);
    es, w := Then(P, [], Initial, Connect(1));
    assert w == At(b, NewSession, map[], 0);
    es, w := Then(P, es, w, RequestSnapshot);
    assert w == At(b, Session(false, 0, map[], [Snapshot(0)]), map[], 0);
    es, w := SnapshotArrives(P, es, w);
    assert w == At(b.(current := true), Session(false, 0, map[], [Snapshot(0)]), map[], 1);
    es, w := Then(P, es, w, RequestSnapshot);
  }

  /** And the action `key` is sent behind it as sequence 1. */
  lemma UnderWay(P: (World, Event) -> bool, key: Key) returns (es: seq<Event>, w: World)
    requires key.epoch == 1
    requires forall w: World, e: Event :: !e.Deadline? && (e.Reserve? ==> w.workers == map[]) ==> P(w, e)
    ensures w == Final(Initial, es) && Along(P, Initial, es)
    ensures w == At(Book(1, true, true, 0, map[key := 0]),
                    Session(false, 1, map[1 := key], [Snapshot(0), Snapshot(0), Run(key, 1)]),
                    map[0 := Recording(key, 1)], 1)
  {
    es, w := Bootstrapped(P);
    es, w := Then(P, es, w, Reserve(0, key));
    assert w.b.inFlight == map[key := 0] && w.workers == map[0 := Reserved(key)];
    es, w := Then(P, es, w, Send(0));
    assert w.workers == map[0 := Recording(key, 1)] && w.s.sent == [Snapshot(0), Snapshot(0), Run(key, 1)];
  }

  /** A deadline on a stale observation leaves the Host idle and current before the Agent has seen the action. */
  lemma StaleDeadlineBreaksCausality(key: Key)
    requires key.epoch == 1
    ensures exists es :: Along(Unrepeated, Initial, es) && IdleUnprocessed(Final(Initial, es))
  {
    var es, w := UnderWay(Unrepeated, key);
    es, w := Then(Unrepeated, es, w, Stale);
    es, w := Then(Unrepeated, es, w, TakeDeadline(1));
    es, w := Then(Unrepeated, es, w, Deadline(1));
    assert w.b == Book(1, true, false, 0, map[]) && w.delivered == w.done == 1;
    assert w.s.sent == [Snapshot(0), Snapshot(0), Run(key, 1)];
    es, w := SnapshotArrives(Unrepeated, es, w);
    assert w.s.sent[2] == Run(key, 1);
  }

  /** The Agent's answer releases the guard while the worker has yet to record the sequence. */
  lemma AnsweredEarly(P: (World, Event) -> bool, key: Key) returns (es: seq<Event>, w: World)
    requires key.epoch == 1
    requires forall w: World, e: Event :: !e.Deadline? && (e.Reserve? ==> w.workers == map[]) ==> P(w, e)
    ensures w == Final(Initial, es) && Along(P, Initial, es)
    ensures w == World(Book(1, true, true, 1, map[]),
                       Session(false, 1, map[], [Snapshot(0), Snapshot(0), Run(key, 1)]), map[],
                       map[0 := Recording(key, 1)], 3, 3, Past({1}, 0))
  {
    var c := [Snapshot(0), Snapshot(0), Run(key, 1)];
    es, w := UnderWay(P, key);
    es, w := Then(P, es, w, Process);
    es, w := Then(P, es, w, Deliver(Got(Executed)));
    assert w == At(Book(1, true, true, 0, map[key := 0]), Session(false, 1, map[1 := key], c),
                   map[0 := Recording(key, 1)], 2);
    es, w := Then(P, es, w, Process);
    es, w := Then(P, es, w, Deliver(Got(Executed)));
  }

  /** A key reserved again while a worker that sent it has yet to record its sequence breaks it too. */
  lemma RepeatedKeyBreaksCausality(key: Key)
    requires key.epoch == 1
    ensures exists es :: Along(Punctual, Initial, es) && IdleUnprocessed(Final(Initial, es))
  {
    var es, w := AnsweredEarly(Punctual, key);
    es, w := Then(Punctual, es, w, Reserve(1, key));
    assert w.b == Book(1, true, true, 1, map[key := 0]);
    es, w := Then(Punctual, es, w, Send(1));
    assert w.s.sent == [Snapshot(0), Snapshot(0), Run(key, 1), Run(key, 2)] && w.done == 3;
    es, w := Then(Punctual, es, w, Record(0));
    assert w.b == Book(1, true, true, 1, map[]);
    assert w.s.sent[3] == Run(key, 2);
  }
}
