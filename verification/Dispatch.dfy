/**
 One Host's reconciliation as interleaved atomic steps: the dispatch of an action
 is reserve, revalidate, send, record by a worker of its own; the Agent executes
 the stream of one session in order; results, snapshots and deadlines come back
 at any later time.
 */
module Dispatch {
  import opened Common
  import opened Guards
  import opened Sessions

  /** Where one ReconcileHost call stands between its locked sections. */
  datatype Worker = Reserved(key: Key) | Recording(key: Key, sequence: nat) | Failing(key: Key)

  /**
   `done` commands were processed by the Agent and `delivered` replies reached the
   Controller. `past` only remembers what happened.
   */
  datatype World = World(b: Book, s: Session, expiring: map<nat, Key>, workers: map<nat, Worker>,
                         done: nat, delivered: nat, past: Past)

  /** Sequences the Agent answered definitively, and the highest mark of a snapshot that was observed. */
  datatype Past = Past(answered: set<nat>, covered: nat)

  datatype Reply = Lost | Got(answer: Answer)

  datatype Event =
    | Connect(epoch: nat)
    | Disconnect(epoch: nat)
    | Revoke
    | Stale                          // the freshness timeout, or RequireFreshBootstrap
    | Reserve(w: nat, key: Key)
    | Abandon(w: nat)
    | Send(w: nat)
    | SendFails(w: nat, reached: bool)
    | Fail(w: nat)
    | Record(w: nat)
    | RequestSnapshot
    | Process
    | Deliver(reply: Reply)
    | TakeDeadline(sequence: nat)
    | Deadline(sequence: nat)
    | LateAnswer(key: Key)           // a result of a session of an earlier epoch

  const Initial := World(Book(0, false, false, 0, map[]), NewSession, map[], map[], 0, 0, Past({}, 0))

  /** The Host is idle on a current observation, and its session is not revoked. */
  predicate MayReserve(w: World, key: Key) {
    && w.b.connected && w.b.current && !w.s.revoked
    && key.epoch == w.b.epoch && !HasInFlight(w.b, w.b.epoch) && key !in w.b.inFlight
  }

  /** One step; a step that is not enabled changes nothing. */
  function Next(w: World, e: Event): World {
    match e
    case Connect(epoch) =>
      if epoch <= w.b.epoch then w
      else World(Book(epoch, true, false, 0, w.b.inFlight), NewSession, map[], w.workers, 0, 0, Past({}, 0))
    case Disconnect(epoch) =>
      w.(b := Disconnected(w.b, epoch), s := if epoch == w.b.epoch then w.s.(revoked := true) else w.s)
    case Revoke => w.(s := w.s.(revoked := true))
    case Stale => w.(b := w.b.(current := false))
    case Reserve(v, key) =>
      if v in w.workers || !MayReserve(w, key) then w
      else w.(b := w.b.(inFlight := w.b.inFlight[key := 0]), workers := w.workers[v := Reserved(key)])
    case Abandon(v) =>
      if v in w.workers && w.workers[v].Reserved? then
        w.(b := Clear(w.b, w.workers[v].key), workers := w.workers - {v})
      else w
    case Send(v) =>
      if v in w.workers && w.workers[v].Reserved? && w.workers[v].key.epoch == w.b.epoch && !w.s.revoked then
        w.(s := Dispatched(w.s, w.workers[v].key),
           workers := w.workers[v := Recording(w.workers[v].key, w.s.sequence + 1)])
      else w
    case SendFails(v, reached) =>
      if v in w.workers && w.workers[v].Reserved? then
        w.(s := if w.workers[v].key.epoch == w.b.epoch && !w.s.revoked then Undelivered(w.s, w.workers[v].key, reached)
                else w.s,
           workers := w.workers[v := Failing(w.workers[v].key)])
      else w
    case Fail(v) =>
      if v in w.workers && w.workers[v].Failing? then
        w.(b := Disconnected(w.b, w.workers[v].key.epoch), workers := w.workers - {v})
      else w
    case Record(v) =>
      if v in w.workers && w.workers[v].Recording? then
        w.(b := Recorded(w.b, w.workers[v].key, w.workers[v].sequence), workers := w.workers - {v})
      else w
    case RequestSnapshot => if w.s.revoked then w else w.(s := Requested(w.s))
    case Process => if w.done < |w.s.sent| then w.(done := w.done + 1) else w
    case Deliver(reply) =>
      if w.delivered < w.done && w.done <= |w.s.sent| then Delivered(w, w.s.sent[w.delivered], reply) else w
    case TakeDeadline(q) =>
      if q in w.s.pending then w.(s := Taken(w.s, q), expiring := w.expiring[q := w.s.pending[q]]) else w
    case Deadline(q) =>
      if q in w.expiring then
        w.(b := Answered(w.b, w.expiring[q], q, Uncertain), expiring := w.expiring - {q})
      else w
    case LateAnswer(key) => if key.epoch < w.b.epoch then w.(b := Clear(w.b, key)) else w
  }

  function CoveredTo(p: Past, mark: nat): Past { p.(covered := if p.covered < mark then mark else p.covered) }

  /** The reply to command `c` arrives. */
  function Delivered(w: World, c: Command, reply: Reply): World {
    var n := w.(delivered := w.delivered + 1);
    match c
    case Snapshot(mark) =>
      if reply.Lost? || !w.b.connected || mark < w.b.observed then n
      else n.(b := Observed(w.b, w.b.epoch, mark), past := CoveredTo(w.past, mark))
    case Run(key, q) =>
      if reply.Lost? || q !in w.s.pending then n
      else
        var m := n.(b := Answered(w.b, key, q, reply.answer), s := Taken(w.s, q));
        if !w.b.current || reply.answer.Uncertain? then m
        else m.(past := w.past.(answered := w.past.answered + {q}))
  }

  function Final(w: World, es: seq<Event>): World
    decreases |es|
  {
    if es == [] then w else Final(Next(w, es[0]), es[1..])
  }

  // ---- the two hypotheses about timing -------------------------------------

  /**
   A snapshot requested before some action is still to come back, and would make the
   observation current too early.
   */
  predicate SnapshotAhead(sent: seq<Command>, delivered: nat) {
    exists j, k :: 0 <= j < k < |sent| && delivered <= j && sent[j].Snapshot? && sent[k].Run?
  }

  predicate HoldsReservation(workers: map<nat, Worker>, key: Key) {
    exists v :: v in workers && workers[v] == Reserved(key)
  }

  /**
   A result deadline releases the guard of a connected Host on a stale observation
   while a snapshot from before the action is under way, or while a worker has yet
   to send under that guard.
   */
  predicate Strikes(w: World, q: nat) {
    && q in w.expiring && w.expiring[q] in w.b.inFlight && w.expiring[q].epoch == w.b.epoch
    && w.b.connected && !w.b.current
    && (SnapshotAhead(w.s.sent, w.delivered) || (!w.s.revoked && HoldsReservation(w.workers, w.expiring[q])))
  }

  predicate StillRecording(w: World, key: Key) {
    exists v :: v in w.workers && w.workers[v].Recording? && w.workers[v].key == key
  }

  predicate Punctual(w: World, e: Event) { e.Deadline? ==> !Strikes(w, e.sequence) }

  predicate Unrepeated(w: World, e: Event) { e.Reserve? ==> !StillRecording(w, e.key) }

  predicate Lawful(w: World, e: Event) { Punctual(w, e) && Unrepeated(w, e) }

  /** Every step of the run meets `P` where it is taken. */
  predicate Along(P: (World, Event) -> bool, w: World, es: seq<Event>)
    decreases |es|
  {
    es == [] || (P(w, es[0]) && Along(P, Next(w, es[0]), es[1..]))
  }

  lemma {:induction false} OneMore(P: (World, Event) -> bool, w: World, es: seq<Event>, e: Event)
    ensures Final(w, es + [e]) == Next(Final(w, es), e)
    ensures Along(P, w, es + [e]) <==> Along(P, w, es) && P(Final(w, es), e)
    decreases |es|
  {
    if es == [] {
      assert Final(Next(w, e), []) == Next(w, e);
    } else {
      assert (es + [e])[1..] == es[1..] + [e];
      OneMore(P, Next(w, es[0]), es[1..], e);
    }
  }

  // ---- at most one guard per epoch, in every interleaving -------------------

  predicate OnePerEpoch(m: map<Key, nat>) { forall k, l :: k in m && l in m && k.epoch == l.epoch ==> k == l }

  /** A step adds no guard except the one it reserves. */
  lemma GuardsOf(w: World, e: Event)
    ensures Next(w, e).b.inFlight.Keys <= w.b.inFlight.Keys
            + (if e.Reserve? && MayReserve(w, e.key) then {e.key} else {})
  {
    match e
    case Deliver(reply) =>
    case Reserve(v, key) =>
    case _ =>
  }

  lemma OneGuardStep(w: World, e: Event)
    requires OnePerEpoch(w.b.inFlight)
    ensures OnePerEpoch(Next(w, e).b.inFlight)
  {
    var m := Next(w, e).b.inFlight;
    GuardsOf(w, e);
    forall k, l | k in m && l in m && k.epoch == l.epoch ensures k == l {
      assert k in m.Keys && l in m.Keys;
    }
  }

  lemma {:induction false} OneGuardPerEpoch(w: World, es: seq<Event>)
    requires OnePerEpoch(w.b.inFlight)
    ensures OnePerEpoch(Final(w, es).b.inFlight)
    decreases |es|
  {
    if es != [] {
      OneGuardStep(w, es[0]);
      OneGuardPerEpoch(Next(w, es[0]), es[1..]);
    }
  }

  /** Epochs only grow, and a step adds no worker except the one that reserves. */
  lemma WorkersOf(w: World, e: Event)
    ensures w.b.epoch <= Next(w, e).b.epoch
    ensures forall v :: v in Next(w, e).workers ==>
              if v in w.workers then Next(w, e).workers[v].key == w.workers[v].key
              else e.Reserve? && MayReserve(w, e.key) && Next(w, e).workers[v].key == e.key
  {
    match e
    case Deliver(reply) =>
    case _ =>
  }
}
