/**
 A Host's live session as the Controller sees it: one send gate, so commands leave
 in one order; every runtime action is stamped with the next dispatch sequence and
 every GET_EXECUTIONS with the last sequence stamped before it.
 */
module Sessions {
  import opened Common
  import opened Guards

  datatype Command = Run(key: Key, sequence: nat) | Snapshot(mark: nat)

  /** `sent` is the FIFO stream to the Agent, `pending` the runtime actions awaiting a reply. */
  datatype Session = Session(revoked: bool, sequence: nat, pending: map<nat, Key>, sent: seq<Command>)

  const NewSession := Session(false, 0, map[], [])

  function Dispatched(s: Session, key: Key): Session {
    Session(s.revoked, s.sequence + 1, s.pending[s.sequence + 1 := key], s.sent + [Run(key, s.sequence + 1)])
  }

  function Requested(s: Session): Session { s.(sent := s.sent + [Snapshot(s.sequence)]) }

  /** The send failed: the session is revoked, nothing is pending, and the Agent may have it or not. */
  function Undelivered(s: Session, key: Key, reached: bool): Session {
    Session(true, s.sequence + 1, s.pending - {s.sequence + 1},
            if reached then s.sent + [Run(key, s.sequence + 1)] else s.sent)
  }

  function Taken(s: Session, sequence: nat): Session { s.(pending := s.pending - {sequence}) }

  /** liveSession; `delivers` and `reached` stand for what the stream does with a write. */
  class LiveSession {
    var revoked: bool
    var runtimeSequence: nat
    var pending: map<nat, Key>
    var sent: seq<Command>

    function State(): Session
      reads this
    {
      Session(revoked, runtimeSequence, pending, sent)
    }

    constructor ()
      ensures State() == NewSession
    {
      revoked, runtimeSequence, pending, sent := false, 0, map[], [];
    }

    method SendRuntime(key: Key, delivers: bool, reached: bool) returns (r: Option<nat>)
      modifies this
      ensures r.Some? <==> !old(revoked) && delivers
      ensures r.Some? ==> r.value == old(runtimeSequence) + 1 && State() == Dispatched(old(State()), key)
      ensures r.Some? ==>
                && !revoked && runtimeSequence == r.value && sent == old(sent) + [Run(key, r.value)]
                && pending == old(pending)[r.value := key]
      ensures r.None? && !old(revoked) ==>
                && revoked && runtimeSequence == old(runtimeSequence) + 1
                && pending == old(pending) - {runtimeSequence}
                && sent == if reached then old(sent) + [Run(key, runtimeSequence)] else old(sent)
      ensures r.None? && old(revoked) ==> State() == old(State())
      ensures r.None? && !old(revoked) ==> State() == Undelivered(old(State()), key, reached)
    {
      if revoked { return None; }
      runtimeSequence := runtimeSequence + 1;
      pending := pending[runtimeSequence := key];
      if !delivers {
        if reached { sent := sent + [Run(key, runtimeSequence)]; }
        pending := pending - {runtimeSequence};
        revoked := true;
        return None;
      }
      sent := sent + [Run(key, runtimeSequence)];
      return Some(runtimeSequence);
    }

    method RequestExecutions()
      modifies this
      ensures State() == if old(revoked) then old(State()) else Requested(old(State()))
      ensures sent == (if revoked then old(sent) else old(sent) + [Snapshot(runtimeSequence)])
      ensures pending == old(pending) && runtimeSequence == old(runtimeSequence) && revoked == old(revoked)
    {
      if !revoked { sent := sent + [Snapshot(runtimeSequence)]; }
    }

    /** Both a reply and the result deadline take the pending action; only one of them can. */
    method TakePending(sequence: nat) returns (r: Option<Key>)
      modifies this
      ensures r == if sequence in old(pending) then Some(old(pending)[sequence]) else None
      ensures State() == Taken(old(State()), sequence)
      ensures sequence !in pending && pending == old(pending) - {sequence} && sent == old(sent)
    {
      if sequence in pending {
        r := Some(pending[sequence]);
        pending := pending - {sequence};
      } else {
        r := None;
      }
    }
  }
}
