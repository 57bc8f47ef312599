/**
 What an idle Host means: once the guard of the last action is gone and the
 observation is current, the Agent has settled everything that was sent.
 */
module DispatchCausality {
  import opened Common
  import opened Guards
  import opened Sessions
  import opened Dispatch

  /** The number of runtime actions among the first `n` commands. */
  function Runs(sent: seq<Command>, n: nat): nat
    requires n <= |sent|
  {
    if n == 0 then 0 else Runs(sent, n - 1) + if sent[n - 1].Run? then 1 else 0
  }

  function Last(sent: seq<Command>): nat { Runs(sent, |sent|) }

  lemma {:induction false} RunsGrow(sent: seq<Command>, m: nat, n: nat)
    requires m <= n <= |sent|
    ensures Runs(sent, m) <= Runs(sent, n)
    decreases n
  {
    if m < n { RunsGrow(sent, m, n - 1); }
  }

  lemma {:induction false} RunsOfPrefix(sent: seq<Command>, more: seq<Command>, n: nat)
    requires n <= |sent|
    ensures Runs(sent + more, n) == Runs(sent, n)
  {
    if n > 0 { RunsOfPrefix(sent, more, n - 1); }
  }

  /** The last action of the stream. */
  function Tip(sent: seq<Command>): Option<Key> {
    if sent == [] then None else if sent[|sent| - 1].Run? then Some(sent[|sent| - 1].key) else Tip(sent[..|sent| - 1])
  }

  predicate Stamp(c: Command, before: nat, epoch: nat) {
    match c
    case Run(key, q) => q == before + 1 && key.epoch == epoch
    case Snapshot(mark) => mark == before
  }

  predicate StampAt(sent: seq<Command>, i: nat, epoch: nat)
    requires i < |sent|
  {
    Stamp(sent[i], Runs(sent, i), epoch)
  }

  predicate Stamped(sent: seq<Command>, epoch: nat) { forall i :: 0 <= i < |sent| ==> StampAt(sent, i, epoch) }

  lemma Appended(sent: seq<Command>, c: Command, epoch: nat)
    requires Stamped(sent, epoch) && Stamp(c, Last(sent), epoch)
    ensures Stamped(sent + [c], epoch)
    ensures Last(sent + [c]) == Last(sent) + (if c.Run? then 1 else 0)
    ensures forall n: nat :: n <= |sent| ==> Runs(sent + [c], n) == Runs(sent, n)
  {
    var s := sent + [c];
    forall n: nat | n <= |sent| ensures Runs(s, n) == Runs(sent, n) { RunsOfPrefix(sent, [c], n); }
    forall i | 0 <= i < |s| ensures StampAt(s, i, epoch) {
      if i < |sent| { assert s[i] == sent[i] && StampAt(sent, i, epoch); }
    }
  }

  /** The reply of the action at place `i` was heard exactly when its sequence is no later than the last heard. */
  lemma SequenceAt(sent: seq<Command>, epoch: nat, i: nat, n: nat)
    requires Stamped(sent, epoch) && i < |sent| && n <= |sent| && sent[i].Run?
    ensures 0 < sent[i].sequence <= Last(sent)
    ensures i < n <==> sent[i].sequence <= Runs(sent, n)
  {
    assert Runs(sent, i + 1) == Runs(sent, i) + 1;
    assert StampAt(sent, i, epoch);
    RunsGrow(sent, i + 1, |sent|);
    if i < n { RunsGrow(sent, i + 1, n); } else { RunsGrow(sent, n, i); }
  }

  /** The action with the last sequence is the tip. */
  lemma {:induction false} TipAt(sent: seq<Command>, epoch: nat, i: nat)
    requires Stamped(sent, epoch) && i < |sent| && sent[i].Run? && sent[i].sequence == Last(sent)
    ensures Tip(sent) == Some(sent[i].key)
  {
    assert StampAt(sent, i, epoch);
    var m := |sent| - 1;
    if i < m {
      var s := sent[..m];
      assert sent == s + [sent[m]];
      forall n: nat | n <= m ensures Runs(sent, n) == Runs(s, n) { RunsOfPrefix(s, [sent[m]], n); }
      forall k | 0 <= k < m ensures StampAt(s, k, epoch) { assert StampAt(sent, k, epoch); }
      SequenceAt(s, epoch, i, m);
      TipAt(s, epoch, i);
    }
  }

  // ---- the invariant ---------------------------------------------------------

  predicate StreamFits(s: Session, epoch: nat, done: nat, delivered: nat) {
    delivered <= done <= |s.sent| && Stamped(s.sent, epoch) && (!s.revoked ==> s.sequence == Last(s.sent))
  }

  predicate EpochsFit(b: Book, workers: map<nat, Worker>) {
    && (forall k :: k in b.inFlight ==> k.epoch <= b.epoch)
    && (forall v :: v in workers ==> workers[v].key.epoch <= b.epoch)
    && OnePerEpoch(b.inFlight)
  }

  /** The highest mark is that of a snapshot that came back. */
  predicate MarkSeen(sent: seq<Command>, delivered: nat, p: Past)
    requires delivered <= |sent|
  {
    p.covered > 0 ==> exists j :: 0 <= j < delivered && sent[j] == Snapshot(p.covered)
  }

  predicate Settled(p: Past, q: nat) { q == 0 || q in p.answered || q <= p.covered }

  /** The guard of the last action stands, or no observation can become current before one that covers it. */
  predicate Guarded(b: Book, key: Key, ahead: bool) { key in b.inFlight || (!b.current && !ahead) }

  ghost predicate Causal(b: Book, last: nat, tip: Option<Key>, heard: nat, p: Past, ahead: bool) {
    && b.observed <= heard <= last && p.covered <= heard
    && (tip.None? <==> last == 0) && (tip.Some? ==> tip.value.epoch == b.epoch)
    && (forall q :: q in p.answered ==> q <= heard)
    && (forall q: nat :: q < last || q <= b.observed ==> Settled(p, q))
    && (Settled(p, last) || Guarded(b, tip.value, ahead))
    && (forall k :: k in b.inFlight && k.epoch == b.epoch && b.inFlight[k] > 0 ==> b.inFlight[k] == last)
  }

  /** Of the workers in the current epoch, one at most holds a reservation, and what it guards is all there is. */
  predicate WorkersFit(b: Book, last: nat, settled: bool, workers: map<nat, Worker>, open: bool) {
    && (forall v :: v in workers && workers[v].key.epoch == b.epoch ==> WorkerFits(b, last, settled, workers[v], open))
    && (forall u, v :: u in workers && v in workers && workers[u].key.epoch == b.epoch ==>
          Apart(u, v, workers[u], workers[v]))
  }

  /** While the session is `open` a reservation is guarded. */
  predicate WorkerFits(b: Book, last: nat, settled: bool, w: Worker, open: bool) {
    && (w.Reserved? ==> settled && (open ==> w.key in b.inFlight && b.inFlight[w.key] == 0))
    && (w.Recording? ==> 0 < w.sequence <= last && (w.key in b.inFlight ==> w.sequence == last))
  }

  predicate Apart(u: nat, v: nat, w: Worker, x: Worker) {
    w.Reserved? ==> (x.Recording? ==> x.key != w.key) && (x.Reserved? && x.key.epoch == w.key.epoch ==> u == v)
  }

  /** The stream as the invariant sees it. */
  datatype View = View(last: nat, tip: Option<Key>, heard: nat, ahead: bool, open: bool)

  ghost predicate Live(b: Book, s: View, p: Past, workers: map<nat, Worker>) {
    b.connected ==>
      && Causal(b, s.last, s.tip, s.heard, p, s.ahead)
      && WorkersFit(b, s.last, Settled(p, s.last), workers, s.open)
  }

  function ViewOf(w: World): View
    requires w.delivered <= |w.s.sent|
  {
    View(Last(w.s.sent), Tip(w.s.sent), Runs(w.s.sent, w.delivered), SnapshotAhead(w.s.sent, w.delivered), !w.s.revoked)
  }

  // ---- steps ----------------------------------------------------------------

  lemma ReserveKeeps(b: Book, s: View, p: Past, workers: map<nat, Worker>, v: nat, key: Key)
    requires Live(b, s, p, workers) && v !in workers && s.open
    requires b.connected && b.current && key.epoch == b.epoch && !HasInFlight(b, b.epoch) && key !in b.inFlight
    requires forall u :: u in workers && workers[u].Recording? ==> workers[u].key != key
    ensures Live(b.(inFlight := b.inFlight[key := 0]), s, p, workers[v := Reserved(key)])
  {
    var c := b.(inFlight := b.inFlight[key := 0]);
    assert forall k :: k in c.inFlight && k.epoch == c.epoch ==> k == key;
    assert Settled(p, s.last);
    forall u | u in workers && workers[u].key.epoch == b.epoch ensures !workers[u].Reserved? {
      assert WorkerFits(b, s.last, true, workers[u], true);
    }
  }

  /** Nothing was sent under the reservation that goes. */
  lemma AbandonKeeps(b: Book, s: View, p: Past, workers: map<nat, Worker>, v: nat)
    requires Live(b, s, p, workers) && v in workers && workers[v].Reserved?
    ensures Live(Clear(b, workers[v].key), s, p, workers - {v})
  {
  }

  /** The reserved action takes the next place of the stream and becomes the last one. */
  lemma SendKeeps(b: Book, s: View, p: Past, workers: map<nat, Worker>, v: nat, to: Worker, t: View)
    requires Live(b, s, p, workers) && s.open && t.last == s.last + 1 && t.heard == s.heard
    requires v in workers && workers[v].Reserved? && workers[v].key.epoch == b.epoch && OnePerEpoch(b.inFlight)
    requires to == Recording(workers[v].key, t.last) || to == Failing(workers[v].key)
    requires t.tip == Some(workers[v].key)
    ensures Live(b, t, p, workers[v := to])
  {
  }

  lemma FailingKeeps(b: Book, s: View, p: Past, workers: map<nat, Worker>, v: nat)
    requires Live(b, s, p, workers) && v in workers && workers[v].Reserved?
    ensures Live(b, s, p, workers[v := Failing(workers[v].key)])
  {
  }

  lemma DisconnectKeeps(b: Book, s: View, p: Past, workers: map<nat, Worker>, epoch: nat)
    requires Live(b, s, p, workers)
    ensures Live(Disconnected(b, epoch), s, p, workers)
  {
  }

  /** A worker leaves. */
  lemma LeaveKeeps(b: Book, s: View, p: Past, workers: map<nat, Worker>, v: nat)
    requires Live(b, s, p, workers)
    ensures Live(b, s, p, workers - {v})
  {
  }

  /** The session closes, or nothing ahead is left: less is asked. */
  lemma CloseKeeps(b: Book, s: View, p: Past, workers: map<nat, Worker>, t: View)
    requires Live(b, s, p, workers) && t == s.(ahead := t.ahead, open := t.open)
    requires (t.ahead ==> s.ahead) && (t.open ==> s.open)
    ensures Live(b, t, p, workers)
  {
  }

  lemma RecordKeeps(b: Book, s: View, p: Past, workers: map<nat, Worker>, v: nat)
    requires Live(b, s, p, workers) && v in workers && workers[v].Recording?
    ensures Live(Recorded(b, workers[v].key, workers[v].sequence), s, p, workers)
  {
  }

  lemma ClearOldKeeps(b: Book, s: View, p: Past, workers: map<nat, Worker>, key: Key)
    requires Live(b, s, p, workers) && (b.connected ==> key.epoch != b.epoch)
    ensures Live(Clear(b, key), s, p, workers)
  {
  }

  /** A guard is released on a stale observation, with nothing ahead and nothing left to send under it. */
  lemma ClearStaleKeeps(b: Book, s: View, p: Past, workers: map<nat, Worker>, key: Key)
    requires Live(b, s, p, workers) && !b.current && !s.ahead && OnePerEpoch(b.inFlight)
    requires key in b.inFlight && (s.open ==> !HoldsReservation(workers, key))
    ensures Live(Clear(b, key), s, p, workers)
  {
    if b.connected && s.open && key.epoch == b.epoch {
      forall v | v in workers && workers[v].key.epoch == b.epoch ensures !workers[v].Reserved? {
        var w := workers[v];
        assert WorkerFits(b, s.last, Settled(p, s.last), w, true) && w != Reserved(key);
      }
    }
  }

  /** The snapshot taken after the first `heard` actions arrives; it was not ahead of any other if nothing is. */
  lemma ObservedKeeps(b: Book, s: View, p: Past, workers: map<nat, Worker>)
    requires Live(b, s, p, workers) && b.connected && (s.ahead || s.heard == s.last)
    ensures Live(Observed(b, b.epoch, s.heard), s, CoveredTo(p, s.heard), workers)
  {
    assert forall q :: Settled(p, q) ==> Settled(CoveredTo(p, s.heard), q);
  }

  function Heard(p: Past, stale: bool, q: nat, a: Answer): Past {
    if stale || a.Uncertain? then p else p.(answered := p.answered + {q})
  }

  /** The Agent's answer to the last action arrives, so that nothing is ahead of it any more. */
  lemma AnswerKeeps(b: Book, s: View, p: Past, workers: map<nat, Worker>, a: Answer, t: View)
    requires Live(b, s, p, workers) && b.connected && s.last == s.heard + 1 && s.tip.Some?
    requires t == s.(heard := s.last, ahead := false)
    ensures Live(Answered(b, s.tip.value, s.last, a), t, Heard(p, !b.current, s.last, a), workers)
  {
    assert !Settled(p, s.last);
    var h := Heard(p, !b.current, s.last, a);
    assert forall q :: Settled(p, q) ==> Settled(h, q);
    assert b.current && !a.Uncertain? ==> Settled(h, s.last);
    assert forall q: nat :: q < s.last || q <= Answered(b, s.tip.value, s.last, a).observed ==> Settled(h, q);
  }

  // ---- runs -------------------------------------------------------------------

  ghost predicate Inv(w: World) {
    && StreamFits(w.s, w.b.epoch, w.done, w.delivered)
    && EpochsFit(w.b, w.workers)
    && MarkSeen(w.s.sent, w.delivered, w.past)
    && Live(w.b, ViewOf(w), w.past, w.workers)
  }

  lemma EpochsKept(w: World, e: Event)
    requires EpochsFit(w.b, w.workers)
    ensures EpochsFit(Next(w, e).b, Next(w, e).workers)
  {
    GuardsOf(w, e);
    OneGuardStep(w, e);
    WorkersOf(w, e);
    forall k | k in Next(w, e).b.inFlight ensures k.epoch <= Next(w, e).b.epoch {
      assert k in Next(w, e).b.inFlight.Keys;
    }
  }

  /** A command joins the stream; a snapshot request at its end is ahead of nothing. */
  lemma StreamAppended(w: World, c: Command)
    requires Inv(w) && Stamp(c, Last(w.s.sent), w.b.epoch)
    ensures var s := w.s.sent + [c];
            && Stamped(s, w.b.epoch) && MarkSeen(s, w.delivered, w.past)
            && Last(s) == Last(w.s.sent) + (if c.Run? then 1 else 0)
            && Tip(s) == (if c.Run? then Some(c.key) else Tip(w.s.sent))
            && Runs(s, w.delivered) == Runs(w.s.sent, w.delivered)
            && (c.Snapshot? ==> SnapshotAhead(s, w.delivered) == SnapshotAhead(w.s.sent, w.delivered))
  {
    Appended(w.s.sent, c, w.b.epoch);
    var s := w.s.sent + [c];
    assert s[..|s| - 1] == w.s.sent;
    if w.past.covered > 0 {
      var j :| 0 <= j < w.delivered && w.s.sent[j] == Snapshot(w.past.covered);
      assert s[j] == Snapshot(w.past.covered);
    }
    if c.Snapshot? { AheadAppended(w.s.sent, c, w.delivered); }
  }

  lemma AheadAppended(sent: seq<Command>, c: Command, delivered: nat)
    requires c.Snapshot?
    ensures SnapshotAhead(sent + [c], delivered) == SnapshotAhead(sent, delivered)
  {
    var s := sent + [c];
    if j, k :| 0 <= j < k < |sent| && delivered <= j && sent[j].Snapshot? && sent[k].Run? {
      assert s[j].Snapshot? && s[k].Run?;
    }
    if j, k :| 0 <= j < k < |s| && delivered <= j && s[j].Snapshot? && s[k].Run? {
      assert sent[j].Snapshot? && sent[k].Run?;
    }
  }

  /** As replies come in, fewer commands are ahead; when an action's is the last to come, none is. */
  lemma AheadShrinks(sent: seq<Command>, epoch: nat, d: nat)
    requires Stamped(sent, epoch) && d < |sent|
    ensures SnapshotAhead(sent, d + 1) ==> SnapshotAhead(sent, d)
    ensures Runs(sent, d + 1) == Last(sent) ==> !SnapshotAhead(sent, d + 1)
    ensures sent[d].Snapshot? && !SnapshotAhead(sent, d) ==> Runs(sent, d) == Last(sent)
  {
    forall k | d < k < |sent| && sent[k].Run? && Runs(sent, d + 1) == Last(sent) ensures false {
      SequenceAt(sent, epoch, k, d + 1);
    }
    if Last(sent) > Runs(sent, d) {
      var k := RunBetween(sent, d, |sent|);
      assert sent[d].Snapshot? ==> k > d;
    } else {
      RunsGrow(sent, d, |sent|);
    }
  }

  lemma {:induction false} RunBetween(sent: seq<Command>, m: nat, n: nat) returns (k: nat)
    requires m <= n <= |sent| && Runs(sent, m) < Runs(sent, n)
    ensures m <= k < n && sent[k].Run?
    decreases n
  {
    if sent[n - 1].Run? { k := n - 1; } else { k := RunBetween(sent, m, n - 1); }
  }

  lemma SnapshotDelivered(w: World, mark: nat)
    requires Inv(w) && w.delivered < w.done && w.s.sent[w.delivered] == Snapshot(mark) && w.b.connected
    ensures Inv(Delivered(w, Snapshot(mark), Got(Uncertain)))
  {
    var s, v := w.s.sent, ViewOf(w);
    assert StampAt(s, w.delivered, w.b.epoch);
    assert Runs(s, w.delivered + 1) == mark;
    AheadShrinks(s, w.b.epoch, w.delivered);
    ObservedKeeps(w.b, v, w.past, w.workers);
    CloseKeeps(Observed(w.b, w.b.epoch, mark), v, CoveredTo(w.past, mark), w.workers,
               ViewOf(w.(delivered := w.delivered + 1)));
  }

  lemma ActionDelivered(w: World, key: Key, q: nat, a: Answer)
    requires Inv(w) && w.delivered < w.done && w.s.sent[w.delivered] == Run(key, q) && w.b.connected
    ensures q == Last(w.s.sent) == Runs(w.s.sent, w.delivered + 1) && Tip(w.s.sent) == Some(key)
    ensures var t := ViewOf(w.(delivered := w.delivered + 1));
            && Live(Answered(w.b, key, q, a), t, Heard(w.past, !w.b.current, q, a), w.workers)
            && Live(w.b, t, w.past, w.workers)
  {
    var s := w.s.sent;
    assert StampAt(s, w.delivered, w.b.epoch);
    RunsGrow(s, w.delivered + 1, |s|);
    assert !Settled(w.past, q);
    TipAt(s, w.b.epoch, w.delivered);
    AheadShrinks(s, w.b.epoch, w.delivered);
    AnswerKeeps(w.b, ViewOf(w), w.past, w.workers, a, ViewOf(w.(delivered := w.delivered + 1)));
  }

  /** A reply is heard and changes nothing else. */
  lemma HeardKeeps(w: World)
    requires Inv(w) && w.delivered < w.done
    ensures Inv(w.(delivered := w.delivered + 1))
  {
    var s := w.s.sent;
    assert StampAt(s, w.delivered, w.b.epoch);
    if w.b.connected {
      if s[w.delivered].Run? {
        ActionDelivered(w, s[w.delivered].key, s[w.delivered].sequence, Uncertain);
      } else {
        AheadShrinks(s, w.b.epoch, w.delivered);
        CloseKeeps(w.b, ViewOf(w), w.past, w.workers, ViewOf(w.(delivered := w.delivered + 1)));
      }
    }
  }

  /** A reply to a pending action. */
  lemma ResultKeeps(w: World, key: Key, q: nat, a: Answer)
    requires Inv(w) && w.delivered < w.done && w.s.sent[w.delivered] == Run(key, q) && q in w.s.pending
    ensures Inv(Next(w, Deliver(Got(a))))
  {
    EpochsKept(w, Deliver(Got(a)));
    assert Next(w, Deliver(Got(a))) == Delivered(w, Run(key, q), Got(a));
    var n := Delivered(w, Run(key, q), Got(a));
    assert n.b == Answered(w.b, key, q, a) && n.s == Taken(w.s, q) && n.past == Heard(w.past, !w.b.current, q, a);
    assert n.workers == w.workers && n.delivered == w.delivered + 1 && n.done == w.done;
    assert n.past.covered == w.past.covered;
    if w.b.connected {
      ActionDelivered(w, key, q, a);
      assert ViewOf(n) == ViewOf(w.(delivered := w.delivered + 1));
    }
  }

  lemma DeliverKeeps(w: World, reply: Reply)
    requires Inv(w) && w.delivered < w.done
    ensures Inv(Next(w, Deliver(reply)))
  {
    match w.s.sent[w.delivered]
    case Snapshot(mark) =>
      if reply.Got? && w.b.connected && w.b.observed <= mark { SnapshotDelivered(w, mark); } else { HeardKeeps(w); }
    case Run(key, q) =>
      if reply.Got? && q in w.s.pending { ResultKeeps(w, key, q, reply.answer); } else { HeardKeeps(w); }
  }

  /** What sending under the reservation of worker `v` makes of the stream and the invariant's live part. */
  lemma Sent(w: World, v: nat, to: Worker, s: Session)
    requires Inv(w) && v in w.workers && w.workers[v].Reserved? && w.workers[v].key.epoch == w.b.epoch && !w.s.revoked
    requires to == Recording(w.workers[v].key, Last(w.s.sent) + 1) || to == Failing(w.workers[v].key)
    requires s.sent == w.s.sent + [Run(w.workers[v].key, Last(w.s.sent) + 1)]
    ensures Stamped(s.sent, w.b.epoch) && MarkSeen(s.sent, w.delivered, w.past) && Last(s.sent) == Last(w.s.sent) + 1
    ensures Live(w.b, ViewOf(w.(s := s)), w.past, w.workers[v := to])
  {
    StreamAppended(w, Run(w.workers[v].key, Last(w.s.sent) + 1));
    if w.b.connected { SendKeeps(w.b, ViewOf(w), w.past, w.workers, v, to, ViewOf(w.(s := s))); }
  }

  lemma SendStep(w: World, v: nat)
    requires Inv(w) && v in w.workers && w.workers[v].Reserved? && w.workers[v].key.epoch == w.b.epoch && !w.s.revoked
    ensures Inv(Next(w, Send(v)))
  {
    EpochsKept(w, Send(v));
    Sent(w, v, Recording(w.workers[v].key, Last(w.s.sent) + 1), Dispatched(w.s, w.workers[v].key));
  }

  lemma SendFailsStep(w: World, v: nat)
    requires Inv(w) && v in w.workers && w.workers[v].Reserved? && w.workers[v].key.epoch == w.b.epoch && !w.s.revoked
    ensures Inv(Next(w, SendFails(v, true)))
  {
    EpochsKept(w, SendFails(v, true));
    Sent(w, v, Failing(w.workers[v].key), Undelivered(w.s, w.workers[v].key, true));
  }

  lemma AbandonStep(w: World, v: nat)
    requires Inv(w) && v in w.workers && w.workers[v].Reserved?
    ensures Inv(Next(w, Abandon(v)))
  {
    EpochsKept(w, Abandon(v));
    AbandonKeeps(w.b, ViewOf(w), w.past, w.workers, v);
  }

  /** The session may be revoked, but the Agent has not got the action. */
  lemma UnsentStep(w: World, v: nat, reached: bool)
    requires Inv(w) && v in w.workers && w.workers[v].Reserved?
    requires reached ==> w.s.revoked || w.workers[v].key.epoch != w.b.epoch
    ensures Inv(Next(w, SendFails(v, reached)))
  {
    var n := Next(w, SendFails(v, reached));
    EpochsKept(w, SendFails(v, reached));
    FailingKeeps(w.b, ViewOf(w), w.past, w.workers, v);
    assert n.s.sent == w.s.sent && n.b == w.b && n.past == w.past && n.delivered == w.delivered && n.done == w.done;
    CloseKeeps(w.b, ViewOf(w), w.past, n.workers, ViewOf(n));
  }

  lemma RecordStep(w: World, v: nat)
    requires Inv(w) && v in w.workers && w.workers[v].Recording?
    ensures Inv(Next(w, Record(v)))
  {
    EpochsKept(w, Record(v));
    RecordKeeps(w.b, ViewOf(w), w.past, w.workers, v);
    LeaveKeeps(Recorded(w.b, w.workers[v].key, w.workers[v].sequence), ViewOf(w), w.past, w.workers, v);
  }

  lemma FailStep(w: World, v: nat)
    requires Inv(w) && v in w.workers && w.workers[v].Failing?
    ensures Inv(Next(w, Fail(v)))
  {
    var b := Disconnected(w.b, w.workers[v].key.epoch);
    EpochsKept(w, Fail(v));
    DisconnectKeeps(w.b, ViewOf(w), w.past, w.workers, w.workers[v].key.epoch);
    LeaveKeeps(b, ViewOf(w), w.past, w.workers, v);
  }

  lemma ReserveStep(w: World, v: nat, key: Key)
    requires Inv(w) && v !in w.workers && MayReserve(w, key) && !StillRecording(w, key)
    ensures Inv(Next(w, Reserve(v, key)))
  {
    EpochsKept(w, Reserve(v, key));
    ReserveKeeps(w.b, ViewOf(w), w.past, w.workers, v, key);
  }

  /** A new epoch starts with an empty stream; guards and workers of earlier epochs stay behind. */
  lemma ConnectStep(w: World, epoch: nat)
    requires Inv(w) && w.b.epoch < epoch
    ensures Inv(Next(w, Connect(epoch)))
  {
    EpochsKept(w, Connect(epoch));
    var p := Past({}, 0);
    assert Settled(p, 0);
  }

  lemma DisconnectStep(w: World, epoch: nat)
    requires Inv(w)
    ensures Inv(Next(w, Disconnect(epoch)))
  {
    EpochsKept(w, Disconnect(epoch));
    var n := Next(w, Disconnect(epoch));
    DisconnectKeeps(w.b, ViewOf(w), w.past, w.workers, epoch);
    CloseKeeps(n.b, ViewOf(w), w.past, w.workers, ViewOf(n));
  }

  /** Steps of the session and of the clock. */
  lemma SessionStep(w: World, e: Event)
    requires Inv(w) && (e.Revoke? || e.Stale? || e.RequestSnapshot? || e.Process? || e.TakeDeadline?)
    ensures Inv(Next(w, e))
  {
    EpochsKept(w, e);
    match e
    case Revoke => CloseKeeps(w.b, ViewOf(w), w.past, w.workers, ViewOf(Next(w, e)));
    case RequestSnapshot =>
      if !w.s.revoked {
        StreamAppended(w, Snapshot(Last(w.s.sent)));
        assert ViewOf(Next(w, e)) == ViewOf(w);
      }
    case _ =>
  }

  lemma LateStep(w: World, e: Event)
    requires Inv(w) && Lawful(w, e) && (e.Deadline? || e.LateAnswer?)
    ensures Inv(Next(w, e))
  {
    EpochsKept(w, e);
    assert ViewOf(Next(w, e)) == ViewOf(w);
    if e.LateAnswer? && e.key.epoch < w.b.epoch {
      ClearOldKeeps(w.b, ViewOf(w), w.past, w.workers, e.key);
    } else if e.Deadline? && e.sequence in w.expiring {
      var key := w.expiring[e.sequence];
      if !w.b.connected || key.epoch != w.b.epoch {
        ClearOldKeeps(w.b, ViewOf(w), w.past, w.workers, key);
      } else if !w.b.current {
        if key in w.b.inFlight {
          ClearStaleKeeps(w.b, ViewOf(w), w.past, w.workers, key);
        } else {
          assert Clear(w.b, key) == w.b;
        }
      }
    }
  }

  /** Every step that meets the two hypotheses keeps the invariant. */
  lemma StepKeeps(w: World, e: Event)
    requires Inv(w) && Lawful(w, e)
    ensures Inv(Next(w, e))
  {
    if Next(w, e) == w { return; }
    match e
    case Connect(epoch) => ConnectStep(w, epoch);
    case Disconnect(epoch) => DisconnectStep(w, epoch);
    case Reserve(v, key) => ReserveStep(w, v, key);
    case Abandon(v) => AbandonStep(w, v);
    case Send(v) => SendStep(w, v);
    case SendFails(v, reached) =>
      if reached && !w.s.revoked && w.workers[v].key.epoch == w.b.epoch {
        SendFailsStep(w, v);
      } else {
        UnsentStep(w, v, reached);
      }
    case Fail(v) => FailStep(w, v);
    case Record(v) => RecordStep(w, v);
    case Deliver(reply) => DeliverKeeps(w, reply);
    case Deadline(_) => LateStep(w, e);
    case LateAnswer(_) => LateStep(w, e);
    case _ => SessionStep(w, e);
  }

  lemma {:induction false} RunKeeps(w: World, es: seq<Event>)
    requires Inv(w) && Along(Lawful, w, es)
    ensures Inv(Final(w, es))
    decreases |es|
  {
    if es != [] {
      StepKeeps(w, es[0]);
      RunKeeps(Next(w, es[0]), es[1..]);
    }
  }

  // ---- what an idle Host means ---------------------------------------------------

  /** The Agent processed the action at place `i`, and answered it definitively or was observed after it. */
  predicate SettledAt(w: World, i: nat)
    requires i < |w.s.sent| && w.s.sent[i].Run?
  {
    && i < w.done
    && (w.s.sent[i].sequence in w.past.answered
        || (w.s.sent[i].sequence <= w.past.covered
            && exists j :: i < j < w.delivered && j < |w.s.sent| && w.s.sent[j] == Snapshot(w.past.covered)))
  }

  predicate Idle(b: Book) { b.connected && b.current && !HasInFlight(b, b.epoch) }

  predicate IdleIsSettled(w: World) {
    Idle(w.b) ==> forall i :: 0 <= i < |w.s.sent| && w.s.sent[i].Run? ==> SettledAt(w, i)
  }

  lemma InvSettles(w: World)
    requires Inv(w)
    ensures IdleIsSettled(w)
  {
    var s := w.s.sent;
    forall i | Idle(w.b) && 0 <= i < |s| && s[i].Run? ensures SettledAt(w, i) {
      var q := s[i].sequence;
      SequenceAt(s, w.b.epoch, i, w.delivered);
      assert Settled(w.past, Last(s));
      assert Settled(w.past, q);
      if q !in w.past.answered {
        var j :| 0 <= j < w.delivered && s[j] == Snapshot(w.past.covered);
        assert StampAt(s, j, w.b.epoch);
        SequenceAt(s, w.b.epoch, i, j);
      }
    }
  }

  /**
   The guard is causal: when no action of a connected Host is in flight and its
   observation is current, the Agent has processed every action sent in the epoch,
   and either answered it definitively or took a later snapshot that was observed.
   */
  lemma IdleMeansSettled(es: seq<Event>)
    requires Along(Lawful, Initial, es)
    ensures IdleIsSettled(Final(Initial, es))
  {
    RunKeeps(Initial, es);
    InvSettles(Final(Initial, es));
  }
}
