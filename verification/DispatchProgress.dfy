/** What undisturbed steps bring about: guards are taken, and every way they are meant to go, they go. */
module DispatchProgress {
  import opened Common
  import opened Guards
  import opened Sessions
  import opened Dispatch

  /** Everything sent was processed and everything processed was heard. */
  predicate Quiet(w: World) {
    w.delivered == w.done == |w.s.sent| && w.s.pending == map[] && w.b.observed <= w.s.sequence
  }

  function Sent(w: World, v: nat, key: Key): World { Next(Next(w, Reserve(v, key)), Send(v)) }

  /** An action is guarded from its reservation on and sent under the next sequence, which the guard then learns. */
  lemma DispatchIsGuarded(w: World, v: nat, key: Key)
    requires MayReserve(w, key) && v !in w.workers && Quiet(w)
    ensures Next(w, Reserve(v, key)).b == w.b.(inFlight := w.b.inFlight[key := 0])
    ensures var n := Sent(w, v, key);
            && n.s == Session(false, w.s.sequence + 1, map[w.s.sequence + 1 := key],
                              w.s.sent + [Run(key, w.s.sequence + 1)])
            && Next(n, Record(v)).b == w.b.(inFlight := w.b.inFlight[key := w.s.sequence + 1])
            && Next(n, Record(v)).workers == w.workers
  {
  }

  /** The Agent has the action, and its answer is to come. */
  function Waiting(w: World, v: nat, key: Key): World { Next(Next(Sent(w, v, key), Record(v)), Process) }

  lemma WaitingIs(w: World, v: nat, key: Key)
    requires MayReserve(w, key) && v !in w.workers && Quiet(w)
    ensures var n, q := Waiting(w, v, key), w.s.sequence + 1;
            && n == World(w.b.(inFlight := w.b.inFlight[key := q]), n.s, w.expiring, w.workers, w.done + 1, w.delivered,
                          w.past)
            && n.s == Session(false, q, map[q := key], w.s.sent + [Run(key, q)])
            && n.s.sent[n.delivered] == Run(key, q) && n.b.inFlight - {key} == w.b.inFlight
            && key.epoch == w.b.epoch && w.b.connected && w.b.current
  {
    DispatchIsGuarded(w, v, key);
  }

  /** The reply to an action of the current session, on a current observation. */
  lemma RunAnswered(n: World, key: Key, q: nat)
    requires n.delivered < n.done <= |n.s.sent| && n.s.sent[n.delivered] == Run(key, q) && q in n.s.pending
    requires n.b.connected && n.b.current && n.b.epoch == key.epoch && n.b.observed <= q
    ensures var u := Next(n, Deliver(Got(Executed)));
            u == n.(b := n.b.(observed := q, inFlight := n.b.inFlight - {key}), s := u.s, delivered := n.delivered + 1,
                    past := n.past.(answered := n.past.answered + {q}))
            && u.s == n.s.(pending := n.s.pending - {q})
    ensures Next(n, Deliver(Got(Rejected))).b == n.b.(inFlight := n.b.inFlight - {key})
    ensures Next(n, Deliver(Got(Uncertain))).b == n.b && Next(n, Deliver(Lost)).b == n.b
    ensures Next(n, Deliver(Got(ExecutedUnsaved))).b == n.b.(observed := q)
  {
  }

  /** The Agent's answer releases the guard and becomes part of the observation. */
  lemma AnswerCompletes(w: World, v: nat, key: Key)
    requires MayReserve(w, key) && v !in w.workers && Quiet(w)
    ensures var u := Next(Waiting(w, v, key), Deliver(Got(Executed)));
            && u.b == w.b.(observed := w.s.sequence + 1) && u.workers == w.workers && Quiet(u)
            && u.past == w.past.(answered := w.past.answered + {w.s.sequence + 1})
  {
    WaitingIs(w, v, key);
    RunAnswered(Waiting(w, v, key), key, w.s.sequence + 1);
  }

  /** A definitive rejection releases it too, and an uncertain answer does not. */
  lemma OtherAnswers(w: World, v: nat, key: Key)
    requires MayReserve(w, key) && v !in w.workers && Quiet(w)
    ensures var n := Waiting(w, v, key);
            && Next(n, Deliver(Got(Rejected))).b == w.b
            && Next(n, Deliver(Got(Uncertain))).b == w.b.(inFlight := w.b.inFlight[key := w.s.sequence + 1])
            && Next(n, Deliver(Got(ExecutedUnsaved))).b
               == w.b.(inFlight := w.b.inFlight[key := w.s.sequence + 1], observed := w.s.sequence + 1)
            && Next(n, Deliver(Lost)).b == n.b
  {
    WaitingIs(w, v, key);
    RunAnswered(Waiting(w, v, key), key, w.s.sequence + 1);
  }

  /** A snapshot asked for after an action releases every guard of the epoch that was recorded before. */
  lemma SnapshotReleases(w: World, answer: Answer)
    requires w.b.connected && !w.s.revoked && w.delivered == w.done == |w.s.sent| && w.b.observed <= w.s.sequence
    ensures var u := Next(Next(Next(w, RequestSnapshot), Process), Deliver(Got(answer)));
            && u.b.current && u.b.observed == w.s.sequence
            && (forall k :: k in u.b.inFlight <==>
                  k in w.b.inFlight && !(k.epoch == w.b.epoch && 1 <= w.b.inFlight[k] <= w.s.sequence))
            && (forall k :: k in u.b.inFlight ==> u.b.inFlight[k] == w.b.inFlight[k])
  {
    var n := Next(Next(w, RequestSnapshot), Process);
    assert n.s.sent[n.delivered] == Snapshot(w.s.sequence);
  }

  /** The end of a session releases its guards and no others, and a new one starts with nothing observed. */
  lemma SessionsEnd(w: World, epoch: nat)
    ensures var u := Next(w, Disconnect(epoch));
            && (forall k :: k in u.b.inFlight <==> k in w.b.inFlight && k.epoch != epoch)
            && (forall k :: k in u.b.inFlight ==> u.b.inFlight[k] == w.b.inFlight[k])
            && (epoch == w.b.epoch && w.b.connected ==> !u.b.connected && !u.b.current && u.s.revoked)
            && (epoch != w.b.epoch ==> u == w.(b := w.b.(inFlight := u.b.inFlight)))
    ensures epoch > w.b.epoch ==>
              var u := Next(w, Connect(epoch));
              && u.b == Book(epoch, true, false, 0, w.b.inFlight) && u.s == NewSession && u.workers == w.workers
              && u.delivered == u.done == 0 && u.expiring == map[] && u.past == Past({}, 0)
    ensures epoch <= w.b.epoch ==> Next(w, Connect(epoch)) == w
  {
  }

  /** A revoked session reserves and sends nothing more, and a stale observation reserves nothing. */
  lemma NothingIsSent(w: World, v: nat, key: Key)
    ensures var u := Next(w, Revoke); u.s == w.s.(revoked := true) && u == w.(s := u.s)
    ensures var u := Next(w, Stale); !u.b.current && u == w.(b := w.b.(current := false))
    ensures w.s.revoked ==> Next(w, RequestSnapshot) == w && Next(w, Send(v)) == w && Next(w, Reserve(v, key)) == w
    ensures !w.b.current || !w.b.connected || key.epoch != w.b.epoch
            || (exists k :: k in w.b.inFlight && k.epoch == w.b.epoch) ==>
              Next(w, Reserve(v, key)) == w
  {
  }

  /** An action no longer current gives its guard back, and a failed send ends the session. */
  lemma GivenUp(w: World, v: nat, reached: bool)
    requires v in w.workers && w.workers[v].Reserved?
    ensures var u := Next(w, Abandon(v));
            u.b == w.b.(inFlight := w.b.inFlight - {w.workers[v].key}) && u.workers == w.workers - {v} && u.s == w.s
    ensures w.workers[v].key.epoch == w.b.epoch && !w.s.revoked ==>
              var u := Next(Next(w, SendFails(v, reached)), Fail(v));
              && u.s.revoked && (w.b.connected ==> !u.b.connected && !u.b.current) && v !in u.workers
              && (forall k :: k in u.b.inFlight <==> k in w.b.inFlight && k.epoch != w.b.epoch)
              && u.s.sent == (if reached then w.s.sent + [Run(w.workers[v].key, w.s.sequence + 1)] else w.s.sent)
  {
  }

  /**
   The result deadline takes the pending action from the reply, and releases its guard if
   the observation is stale.
   */
  lemma DeadlinePasses(w: World, q: nat)
    requires q in w.s.pending && w.s.pending[q].epoch == w.b.epoch && w.b.connected
    ensures var t := Next(w, TakeDeadline(q));
            && q !in t.s.pending && t.b == w.b
            && Next(t, Deadline(q)).b
               == if w.b.current then w.b else w.b.(inFlight := w.b.inFlight - {w.s.pending[q]})
  {
  }
}
