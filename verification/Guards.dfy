/**
 The coordinator's in-flight guards for one Host. A guard is reserved before an
 action is sent, learns its dispatch sequence afterwards, and is released by the
 Agent's answer, by a later execution snapshot, or by the end of the epoch.
 */
module Guards {
  import opened Common

  datatype Kind = Start | Stop | Block

  /** ActionKey of one Host. */
  datatype Key = Key(workload: nat, generation: nat, execution: nat, epoch: nat, kind: Kind)

  /** The observed epoch of the Host and the guards, keyed to their dispatch sequence (0: not recorded). */
  datatype Book = Book(epoch: nat, connected: bool, current: bool, observed: nat, inFlight: map<Key, nat>)

  /** How a runtime result reads to the handler. */
  datatype Answer =
    | Executed          // a matching execution, accepted and, when FAILED, persisted
    | ExecutedUnsaved   // a matching execution whose terminal failure could not be persisted
    | Rejected          // a permanent START rejection of the still current request, persisted
    | Uncertain         // a transient error, a malformed or a mismatched result

  function Clear(b: Book, key: Key): Book { b.(inFlight := b.inFlight - {key}) }

  predicate HasInFlight(b: Book, epoch: nat) { exists k :: k in b.inFlight && k.epoch == epoch }

  /** setDispatchSequence */
  function Recorded(b: Book, key: Key, sequence: nat): Book {
    if key !in b.inFlight then b
    else if b.epoch == key.epoch && b.observed >= sequence then Clear(b, key)
    else b.(inFlight := b.inFlight[key := sequence])
  }

  predicate Covered(k: Key, v: nat, epoch: nat, mark: nat) { k.epoch == epoch && 0 < v <= mark }

  /** resolveInFlightThroughObservation */
  function Resolved(m: map<Key, nat>, epoch: nat, mark: nat): map<Key, nat> {
    map k | k in m && !Covered(k, m[k], epoch, mark) :: m[k]
  }

  function EpochDropped(m: map<Key, nat>, epoch: nat): map<Key, nat> {
    map k | k in m && k.epoch != epoch :: m[k]
  }

  /** SessionDisconnected */
  function Disconnected(b: Book, epoch: nat): Book {
    var c := b.(inFlight := EpochDropped(b.inFlight, epoch));
    if b.epoch == epoch && b.connected then c.(connected := false, current := false) else c
  }

  /** ExecutionsObserved; SetExecutions refuses a watermark below the one it holds. */
  function Observed(b: Book, epoch: nat, mark: nat): Book {
    if b.epoch != epoch || !b.connected || mark < b.observed then b
    else b.(current := true, observed := mark, inFlight := Resolved(b.inFlight, epoch, mark))
  }

  /** RuntimeResult for the action `key` that was dispatched as `sequence`. */
  function Answered(b: Book, key: Key, sequence: nat, answer: Answer): Book {
    if !b.connected || !b.current || b.epoch != key.epoch then Clear(b, key)
    else
      match answer
      case Uncertain => b
      case Rejected => Clear(b, key)
      case Executed => if sequence < b.observed then b else Clear(b.(observed := sequence), key)
      case ExecutedUnsaved => if sequence < b.observed then b else b.(observed := sequence)
  }

  /** The mutable state behind the handlers, all of which run under the Host lock. */
  class Coordinator {
    var epoch: nat
    var connected: bool
    var current: bool
    var observed: nat
    var inFlight: map<Key, nat>

    function State(): Book
      reads this
    {
      Book(epoch, connected, current, observed, inFlight)
    }

    constructor ()
      ensures State() == Book(0, false, false, 0, map[])
    {
      epoch, connected, current, observed, inFlight := 0, false, false, 0, map[];
    }

    method MarkInFlight(key: Key) returns (ok: bool)
      modifies this
      ensures ok <==> key !in old(inFlight)
      ensures State() == if ok then old(State()).(inFlight := old(inFlight)[key := 0]) else old(State())
    {
      if key in inFlight { return false; }
      inFlight := inFlight[key := 0];
      return true;
    }

    method ClearInFlight(key: Key)
      modifies this
      ensures State() == Clear(old(State()), key)
    {
      inFlight := inFlight - {key};
    }

    method SetDispatchSequence(key: Key, sequence: nat)
      modifies this
      ensures State() == Recorded(old(State()), key, sequence)
      ensures key !in old(inFlight) ==> inFlight == old(inFlight)
      ensures key in old(inFlight) ==>
                if epoch == key.epoch && observed >= sequence then inFlight == old(inFlight) - {key}
                else inFlight == old(inFlight)[key := sequence]
    {
      if key in inFlight {
        if epoch == key.epoch && observed >= sequence {
          inFlight := inFlight - {key};
          return;
        }
        inFlight := inFlight[key := sequence];
      }
    }

    method ResolveThroughObservation(forEpoch: nat, mark: nat)
      modifies this`inFlight
      ensures inFlight == Resolved(old(inFlight), forEpoch, mark)
      ensures forall k :: k in inFlight <==>
                k in old(inFlight) && (k.epoch != forEpoch || old(inFlight)[k] == 0 || old(inFlight)[k] > mark)
      ensures forall k :: k in inFlight ==> inFlight[k] == old(inFlight)[k]
    {
      var todo := inFlight.Keys;
      while todo != {}
        invariant todo <= old(inFlight).Keys && inFlight.Keys <= old(inFlight).Keys
        invariant forall k :: k in inFlight ==> inFlight[k] == old(inFlight)[k]
        invariant forall k :: k in old(inFlight) ==>
                    (k in inFlight <==> k in todo || !Covered(k, old(inFlight)[k], forEpoch, mark))
        decreases |todo|
      {
        var k :| k in todo;
        if Covered(k, inFlight[k], forEpoch, mark) {
          inFlight := inFlight - {k};
        }
        todo := todo - {k};
      }
    }

    method HostHasInFlight(forEpoch: nat) returns (found: bool)
      ensures found <==> HasInFlight(State(), forEpoch)
    {
      var todo := inFlight.Keys;
      found := false;
      while todo != {}
        invariant todo <= inFlight.Keys
        invariant forall k :: k in inFlight && k !in todo ==> k.epoch != forEpoch
        decreases |todo|
      {
        var k :| k in todo;
        if k.epoch == forEpoch { return true; }
        todo := todo - {k};
      }
    }

    method SessionConnected(newEpoch: nat)
      modifies this
      ensures State() == if newEpoch <= old(epoch) then old(State()) else Book(newEpoch, true, false, 0, old(inFlight))
    {
      if epoch < newEpoch {
        epoch, connected, current, observed := newEpoch, true, false, 0;
      }
    }

    method SessionDisconnected(forEpoch: nat)
      modifies this
      ensures State() == Disconnected(old(State()), forEpoch)
      ensures forall k :: k in inFlight <==> k in old(inFlight) && k.epoch != forEpoch
      ensures forall k :: k in inFlight ==> inFlight[k] == old(inFlight)[k]
      ensures epoch == old(epoch) && observed == old(observed)
      ensures connected == (old(connected) && epoch != forEpoch)
      ensures current == (old(current) && !(epoch == forEpoch && old(connected)))
    {
      if epoch == forEpoch && connected {
        connected, current := false, false;
      }
      var todo := inFlight.Keys;
      while todo != {}
        invariant epoch == old(epoch) && observed == old(observed)
        invariant connected == Disconnected(old(State()), forEpoch).connected
        invariant current == Disconnected(old(State()), forEpoch).current
        invariant todo <= old(inFlight).Keys && inFlight.Keys <= old(inFlight).Keys
        invariant forall k :: k in inFlight ==> inFlight[k] == old(inFlight)[k]
        invariant forall k :: k in old(inFlight) ==> (k in inFlight <==> k in todo || k.epoch != forEpoch)
        decreases |todo|
      {
        var k :| k in todo;
        if k.epoch == forEpoch {
          inFlight := inFlight - {k};
        }
        todo := todo - {k};
      }
      assert inFlight == EpochDropped(old(inFlight), forEpoch);
    }

    method ExecutionsObserved(forEpoch: nat, mark: nat)
      modifies this
      ensures State() == Observed(old(State()), forEpoch, mark)
    {
      if epoch != forEpoch || !connected || mark < observed { return; }
      current, observed := true, mark;
      ResolveThroughObservation(forEpoch, mark);
    }

    method RuntimeResult(key: Key, sequence: nat, answer: Answer)
      modifies this
      ensures State() == Answered(old(State()), key, sequence, answer)
    {
      if !connected || !current || epoch != key.epoch {
        ClearInFlight(key);
        return;
      }
      match answer
      case Uncertain =>
      case Rejected => ClearInFlight(key);
      case Executed =>
        if sequence >= observed {
          observed := sequence;
          ClearInFlight(key);
        }
      case ExecutedUnsaved =>
        if sequence >= observed {
          observed := sequence;
        }
    }
  }
}
