/** What the Controller has observed of each Host, scoped to the epoch of its connection. */
module ObservedStore {
  import opened Common
  import Guards

  datatype Execution = Execution(id: nat, status: Status)

  /** When a fact was last refreshed; none while it may not authorise anything. */
  type Stamp = Option<int>

  datatype Entry = Entry(agent: nat, epoch: nat, connected: bool, ready: bool,
                         recent: bool, freshAt: Stamp, sequence: nat, executions: seq<Execution>,
                         inventoryFresh: bool, inventoryAt: Stamp, inventoryCurrent: bool,
                         processesFresh: bool, processesAt: Stamp, processesCurrent: bool,
                         statusCurrent: bool)

  datatype Call =
    | Connect(agent: nat, epoch: nat)
    | SetExecutions(epoch: nat, executions: seq<Execution>, sequence: nat)
    | SetInventory(epoch: nat)
    | SetProcesses(epoch: nat)
    | SetAgentState(epoch: nat)
    | MarkReady(epoch: nat)
    | RequireFreshBootstrap(epoch: nat)
    | Upsert(epoch: nat, execution: Execution, sequence: nat)
    | Disconnect(epoch: nat)
    | Get

  function NewEntry(agent: nat, epoch: nat): Entry {
    Entry(agent, epoch, true, false, false, None, 0, [], false, None, false, false, None, false, false)
  }

  predicate Current(o: Option<Entry>, epoch: nat) { o.Some? && o.value.epoch == epoch && o.value.connected }

  function Dropped(e: Entry): Entry {
    e.(ready := false, recent := false, freshAt := None, inventoryFresh := false, inventoryAt := None,
       inventoryCurrent := false,
       processesFresh := false, processesAt := None, processesCurrent := false, statusCurrent := false)
  }

  predicate Expired(at: Stamp, now: int, timeout: int) { at.None? || now - at.value > timeout }

  /** refreshFreshness */
  function Aged(e: Entry, now: int, timeout: int): Entry {
    e.(recent := e.recent && !Expired(e.freshAt, now, timeout),
       inventoryFresh := e.inventoryFresh && !Expired(e.inventoryAt, now, timeout),
       processesFresh := e.processesFresh && !Expired(e.processesAt, now, timeout))
  }

  predicate MayBeReady(e: Entry) { e.recent && e.inventoryCurrent && e.statusCurrent && e.processesCurrent }

  function Index(es: seq<Execution>, id: nat): (i: nat)
    ensures i <= |es| && (i < |es| ==> es[i].id == id) && forall j :: 0 <= j < i ==> es[j].id != id
  {
    if es == [] || es[0].id == id then 0 else 1 + Index(es[1..], id)
  }

  function Upserted(es: seq<Execution>, e: Execution): seq<Execution> {
    var i := Index(es, e.id);
    if i < |es| then es[i := e] else es + [e]
  }

  /** The execution is there now, in the place of an earlier report of it, and the others stay. */
  lemma UpsertIs(es: seq<Execution>, e: Execution)
    ensures var fs := Upserted(es, e);
            && e in fs && (forall x :: x in fs ==> x == e || x in es)
            && (forall x :: x in es && x.id != e.id ==> x in fs)
            && (|fs| == |es| <==> exists x :: x in es && x.id == e.id)
  {
    var i, fs := Index(es, e.id), Upserted(es, e);
    if i < |es| { assert fs[i] == e && es[i] in es; } else { assert fs[|es|] == e; }
    forall x | x in es && x.id != e.id ensures x in fs {
      var k :| 0 <= k < |es| && es[k] == x;
      assert fs[k] == x;
    }
  }

  /** The entry of one Host after a call for it at time `now`. */
  function Applied(o: Option<Entry>, c: Call, now: int, timeout: int): Option<Entry> {
    match c
    case Connect(agent, epoch) => if o.Some? && o.value.epoch >= epoch then o else Some(NewEntry(agent, epoch))
    case Get => if o.Some? then Some(Aged(o.value, now, timeout)) else o
    case SetExecutions(epoch, executions, sequence) =>
      if !Current(o, epoch) || sequence < o.value.sequence then o
      else Some(o.value.(executions := executions, recent := true, freshAt := Some(now), sequence := sequence))
    case SetInventory(epoch) =>
      if !Current(o, epoch) then o
      else Some(o.value.(inventoryCurrent := true, inventoryFresh := true, inventoryAt := Some(now)))
    case SetProcesses(epoch) =>
      if !Current(o, epoch) then o
      else Some(o.value.(processesCurrent := true, processesFresh := true, processesAt := Some(now)))
    case SetAgentState(epoch) => if !Current(o, epoch) then o else Some(o.value.(statusCurrent := true))
    case MarkReady(epoch) =>
      if !Current(o, epoch) || o.value.ready || !MayBeReady(o.value) then o else Some(o.value.(ready := true))
    case RequireFreshBootstrap(epoch) => if !Current(o, epoch) then o else Some(Dropped(o.value))
    case Upsert(epoch, execution, sequence) =>
      if !Current(o, epoch) || !o.value.recent || sequence < o.value.sequence then o
      else Some(o.value.(executions := Upserted(o.value.executions, execution), sequence := sequence,
                         freshAt := Some(now)))
    case Disconnect(epoch) => if !Current(o, epoch) then o else Some(Dropped(o.value).(connected := false))
  }

  /** The fields of one Host's entry, updated by the store's methods. */
  class Host {
    var entry: Option<Entry>
    const timeout: int

    constructor (timeout: int)
      ensures entry == None && this.timeout == timeout
    {
      entry := None;
      this.timeout := timeout;
    }

    method Connect(agent: nat, epoch: nat) returns (ok: bool)
      modifies this
      ensures entry == Applied(old(entry), Call.Connect(agent, epoch), 0, timeout)
      ensures ok <==> old(entry).None? || old(entry).value.epoch < epoch
      ensures ok ==>
                && entry.Some? && entry.value.agent == agent && entry.value.epoch == epoch && entry.value.connected
                && !entry.value.ready && entry.value.executions == [] && entry.value.sequence == 0
    {
      if entry.Some? && entry.value.epoch >= epoch { return false; }
      entry := Some(NewEntry(agent, epoch));
      return true;
    }

    method SetExecutions(epoch: nat, executions: seq<Execution>, sequence: nat, now: int) returns (ok: bool)
      modifies this
      ensures entry == Applied(old(entry), Call.SetExecutions(epoch, executions, sequence), now, timeout)
      ensures ok <==> Current(old(entry), epoch) && sequence >= old(entry).value.sequence
      ensures ok ==> entry.Some? && entry.value.executions == executions && entry.value.sequence == sequence
    {
      if !Current(entry, epoch) || sequence < entry.value.sequence { return false; }
      entry := Some(entry.value.(executions := executions, recent := true, freshAt := Some(now), sequence := sequence));
      return true;
    }

    method SetInventory(epoch: nat, now: int) returns (ok: bool)
      modifies this
      ensures entry == Applied(old(entry), Call.SetInventory(epoch), now, timeout)
      ensures ok <==> Current(old(entry), epoch)
    {
      if !Current(entry, epoch) { return false; }
      entry := Some(entry.value.(inventoryCurrent := true, inventoryFresh := true, inventoryAt := Some(now)));
      return true;
    }

    method SetProcesses(epoch: nat, now: int) returns (ok: bool)
      modifies this
      ensures entry == Applied(old(entry), Call.SetProcesses(epoch), now, timeout)
      ensures ok <==> Current(old(entry), epoch)
    {
      if !Current(entry, epoch) { return false; }
      entry := Some(entry.value.(processesCurrent := true, processesFresh := true, processesAt := Some(now)));
      return true;
    }

    method SetAgentState(epoch: nat) returns (ok: bool)
      modifies this
      ensures entry == Applied(old(entry), Call.SetAgentState(epoch), 0, timeout)
      ensures ok <==> Current(old(entry), epoch)
    {
      if !Current(entry, epoch) { return false; }
      entry := Some(entry.value.(statusCurrent := true));
      return true;
    }

    method UpsertExecution(epoch: nat, execution: Execution, sequence: nat, now: int) returns (ok: bool)
      modifies this
      ensures entry == Applied(old(entry), Upsert(epoch, execution, sequence), now, timeout)
      ensures ok <==> Current(old(entry), epoch) && old(entry).value.recent && sequence >= old(entry).value.sequence
      ensures ok ==>
                && entry.Some? && entry.value.sequence == sequence && execution in entry.value.executions
                && (forall x :: x in entry.value.executions ==> x == execution || x in old(entry).value.executions)
                && (forall x :: x in old(entry).value.executions && x.id != execution.id ==>
                      x in entry.value.executions)
                && (|entry.value.executions| == |old(entry).value.executions| <==>
                      exists x :: x in old(entry).value.executions && x.id == execution.id)
    {
      if !Current(entry, epoch) || !entry.value.recent || sequence < entry.value.sequence { return false; }
      UpsertIs(entry.value.executions, execution);
      var es := entry.value.executions;
      var i := 0;
      while i < |es| && es[i].id != execution.id
        invariant 0 <= i <= |es| && forall j :: 0 <= j < i ==> es[j].id != execution.id
      {
        i := i + 1;
      }
      if i < |es| { es := es[i := execution]; } else { es := es + [execution]; }
      entry := Some(entry.value.(executions := es, sequence := sequence, freshAt := Some(now)));
      return true;
    }

    method MarkReady(epoch: nat) returns (ok: bool)
      modifies this
      ensures entry == Applied(old(entry), Call.MarkReady(epoch), 0, timeout)
      ensures ok <==> Current(old(entry), epoch) && !old(entry).value.ready && MayBeReady(old(entry).value)
    {
      if !Current(entry, epoch) || entry.value.ready || !entry.value.recent || !entry.value.inventoryCurrent
         || !entry.value.statusCurrent || !entry.value.processesCurrent { return false; }
      entry := Some(entry.value.(ready := true));
      return true;
    }

    method RequireFreshBootstrap(epoch: nat) returns (ok: bool)
      modifies this
      ensures entry == Applied(old(entry), Call.RequireFreshBootstrap(epoch), 0, timeout)
      ensures ok <==> Current(old(entry), epoch)
    {
      if !Current(entry, epoch) { return false; }
      entry := Some(Dropped(entry.value));
      return true;
    }

    method Disconnect(epoch: nat) returns (ok: bool)
      modifies this
      ensures entry == Applied(old(entry), Call.Disconnect(epoch), 0, timeout)
      ensures ok <==> Current(old(entry), epoch)
    {
      if !Current(entry, epoch) { return false; }
      entry := Some(Dropped(entry.value).(connected := false));
      return true;
    }

    method Get(now: int) returns (r: Option<Entry>)
      modifies this
      ensures entry == Applied(old(entry), Call.Get, now, timeout) && r == entry
    {
      if entry.None? { return None; }
      var e := entry.value;
      var f, i, p := e.recent, e.inventoryFresh, e.processesFresh;
      if f && (e.freshAt.None? || now - e.freshAt.value > timeout) { f := false; }
      if i && (e.inventoryAt.None? || now - e.inventoryAt.value > timeout) { i := false; }
      if p && (e.processesAt.None? || now - e.processesAt.value > timeout) { p := false; }
      entry := Some(e.(recent := f, inventoryFresh := i, processesFresh := p));
      return entry;
    }
  }

  // ---- runs ---------------------------------------------------------------------

  datatype Step = Step(call: Call, now: int)

  /** When the current epoch last sent each kind of fact since it began or had to start afresh. */
  datatype Received = Received(executions: Stamp, inventory: Stamp, processes: Stamp, status: bool)

  const Nothing := Received(None, None, None, false)

  datatype World = World(o: Option<Entry>, got: Received)

  /** The call comes over the connection that is up. */
  predicate Speaks(o: Option<Entry>, epoch: nat) { o.Some? && o.value.connected && o.value.epoch == epoch }

  function Next(w: World, s: Step, timeout: int): World {
    var got :=
      match s.call
      case Connect(_, epoch) => if w.o.Some? && w.o.value.epoch >= epoch then w.got else Nothing
      case RequireFreshBootstrap(epoch) => if Speaks(w.o, epoch) then Nothing else w.got
      case Disconnect(epoch) => if Speaks(w.o, epoch) then Nothing else w.got
      case SetExecutions(epoch, _, sequence) =>
        if Speaks(w.o, epoch) && sequence >= w.o.value.sequence then w.got.(executions := Some(s.now)) else w.got
      case Upsert(epoch, _, sequence) =>
        if Speaks(w.o, epoch) && w.o.value.recent && sequence >= w.o.value.sequence then
          w.got.(executions := Some(s.now))
        else w.got
      case SetInventory(epoch) => if Speaks(w.o, epoch) then w.got.(inventory := Some(s.now)) else w.got
      case SetProcesses(epoch) => if Speaks(w.o, epoch) then w.got.(processes := Some(s.now)) else w.got
      case SetAgentState(epoch) => if Speaks(w.o, epoch) then w.got.(status := true) else w.got
      case _ => w.got;
    World(Applied(w.o, s.call, s.now, timeout), got)
  }

  function Final(w: World, ss: seq<Step>, timeout: int): World
    decreases |ss|
  {
    if ss == [] then w else Final(Next(w, ss[0], timeout), ss[1..], timeout)
  }

  /** A fact that is fresh has arrived, and its stamp is its last arrival. */
  predicate Stamped(up: bool, at: Stamp, arrived: Stamp) { at == arrived && (up ==> arrived.Some?) }

  predicate Bootstrapped(e: Entry, got: Received) {
    && (e.ready ==> got.executions.Some? && got.inventory.Some? && got.processes.Some? && got.status && e.connected)
    && Stamped(e.recent, e.freshAt, got.executions)
    && Stamped(e.inventoryFresh, e.inventoryAt, got.inventory) && (e.inventoryCurrent <==> got.inventory.Some?)
    && Stamped(e.processesFresh, e.processesAt, got.processes) && (e.processesCurrent <==> got.processes.Some?)
    && (e.statusCurrent <==> got.status)
  }

  predicate Inv(w: World) { w.o.Some? ==> Bootstrapped(w.o.value, w.got) }

  lemma ArrivalKeeps(w: World, s: Step, timeout: int)
    requires Inv(w) && (s.call.SetExecutions? || s.call.SetInventory? || s.call.SetProcesses? || s.call.SetAgentState?)
    ensures Inv(Next(w, s, timeout))
  {
  }

  lemma EndKeeps(w: World, s: Step, timeout: int)
    requires Inv(w) && (s.call.Connect? || s.call.RequireFreshBootstrap? || s.call.Disconnect?)
    ensures Inv(Next(w, s, timeout))
  {
  }

  lemma AnswerKeeps(w: World, s: Step, timeout: int)
    requires Inv(w) && (s.call.Upsert? || s.call.MarkReady?)
    ensures Inv(Next(w, s, timeout))
  {
  }

  lemma StepKeeps(w: World, s: Step, timeout: int)
    requires Inv(w)
    ensures Inv(Next(w, s, timeout))
  {
    if s.call.Connect? || s.call.RequireFreshBootstrap? || s.call.Disconnect? {
      EndKeeps(w, s, timeout);
    } else if s.call.SetExecutions? || s.call.SetInventory? || s.call.SetProcesses? || s.call.SetAgentState? {
      ArrivalKeeps(w, s, timeout);
    } else if s.call.Upsert? || s.call.MarkReady? {
      AnswerKeeps(w, s, timeout);
    }
  }

  lemma StepGrows(w: World, s: Step, timeout: int)
    requires w.o.Some?
    ensures var o := Next(w, s, timeout).o;
            && o.Some? && o.value.epoch >= w.o.value.epoch
            && (o.value.epoch == w.o.value.epoch ==> o.value.sequence >= w.o.value.sequence)
  {
    match s.call
    case Upsert(_, _, _) =>
    case SetExecutions(_, _, _) =>
    case _ =>
  }

  /**
   READY means that the epoch has sent its executions, inventory, processes and
   status since it began, or since the last demand for a fresh bootstrap.
   */
  lemma {:induction false} ReadyMeansBootstrapped(w: World, ss: seq<Step>, timeout: int)
    requires Inv(w)
    ensures Inv(Final(w, ss, timeout))
    decreases |ss|
  {
    if ss != [] {
      StepKeeps(w, ss[0], timeout);
      ReadyMeansBootstrapped(Next(w, ss[0], timeout), ss[1..], timeout);
    }
  }

  // ---- freshness ----------------------------------------------------------------------

  /** A fact that has arrived and is not fresh is older than the timeout. */
  predicate Lapses(up: bool, arrived: Stamp, now: int, timeout: int) {
    arrived.Some? && !up ==> now - arrived.value > timeout
  }

  predicate LapsedOnly(w: World, now: int, timeout: int) {
    w.o.Some? ==>
      && Lapses(w.o.value.recent, w.got.executions, now, timeout)
      && Lapses(w.o.value.inventoryFresh, w.got.inventory, now, timeout)
      && Lapses(w.o.value.processesFresh, w.got.processes, now, timeout)
  }

  lemma EndLapses(w: World, s: Step, timeout: int, before: int)
    requires LapsedOnly(w, before, timeout) && before <= s.now
    requires s.call.Connect? || s.call.RequireFreshBootstrap? || s.call.Disconnect?
    ensures LapsedOnly(Next(w, s, timeout), s.now, timeout)
  {
  }

  lemma ArrivalLapses(w: World, s: Step, timeout: int, before: int)
    requires LapsedOnly(w, before, timeout) && before <= s.now
    requires s.call.SetExecutions? || s.call.SetInventory? || s.call.SetProcesses? || s.call.SetAgentState?
    ensures LapsedOnly(Next(w, s, timeout), s.now, timeout)
  {
  }

  lemma LapseKeeps(w: World, s: Step, timeout: int, before: int)
    requires Inv(w) && LapsedOnly(w, before, timeout) && before <= s.now
    ensures LapsedOnly(Next(w, s, timeout), s.now, timeout)
  {
    if s.call.Connect? || s.call.RequireFreshBootstrap? || s.call.Disconnect? {
      EndLapses(w, s, timeout, before);
    } else if s.call.SetExecutions? || s.call.SetInventory? || s.call.SetProcesses? || s.call.SetAgentState? {
      ArrivalLapses(w, s, timeout, before);
    }
  }

  predicate Timely(ss: seq<Step>, from: int) {
    ss == [] || (from <= ss[0].now && Timely(ss[1..], ss[0].now))
  }

  lemma {:induction false} RunLapses(w: World, ss: seq<Step>, timeout: int, from: int)
    requires Inv(w) && LapsedOnly(w, from, timeout) && Timely(ss, from)
    ensures Inv(Final(w, ss, timeout))
    ensures LapsedOnly(Final(w, ss, timeout), if ss == [] then from else ss[|ss| - 1].now, timeout)
    decreases |ss|
  {
    if ss != [] {
      StepKeeps(w, ss[0], timeout);
      LapseKeeps(w, ss[0], timeout, from);
      RunLapses(Next(w, ss[0], timeout), ss[1..], timeout, ss[0].now);
    }
  }

  /** It has arrived, and not longer ago than the timeout. */
  predicate Lately(arrived: Stamp, now: int, timeout: int) { arrived.Some? && now - arrived.value <= timeout }

  /**
   What a reader gets, after any run from the first connection with a clock that does not go
   back: each kind of fact is fresh exactly if the connection sent it, since it began or was
   last told to start afresh, and not longer ago than the timeout.
   */
  lemma FreshExactlyWhen(ss: seq<Step>, now: int, timeout: int)
    requires Timely(ss, if ss == [] then now else ss[0].now) && (ss != [] ==> ss[|ss| - 1].now <= now)
    ensures var w := Final(World(None, Nothing), ss, timeout);
            var r := Applied(w.o, Get, now, timeout);
            r.Some? ==>
              && (r.value.recent <==> Lately(w.got.executions, now, timeout))
              && (r.value.inventoryFresh <==> Lately(w.got.inventory, now, timeout))
              && (r.value.processesFresh <==> Lately(w.got.processes, now, timeout))
  {
    RunLapses(World(None, Nothing), ss, timeout, if ss == [] then now else ss[0].now);
  }

  /** An entry becomes READY exactly when executions are fresh and all else has arrived. */
  lemma ReadyExactlyWhen(w: World, epoch: nat, now: int, timeout: int)
    requires Inv(w) && Speaks(w.o, epoch)
    ensures var r := Applied(w.o, MarkReady(epoch), now, timeout);
            && r.Some? && r.value == w.o.value.(ready := r.value.ready)
            && (r.value.ready <==>
                  w.o.value.ready
                  || (w.o.value.recent && w.got.inventory.Some? && w.got.processes.Some? && w.got.status))
  {
  }

  function EpochOf(c: Call): Option<nat> {
    match c
    case Connect(_, epoch) => Some(epoch)
    case SetExecutions(epoch, _, _) => Some(epoch)
    case SetInventory(epoch) => Some(epoch)
    case SetProcesses(epoch) => Some(epoch)
    case SetAgentState(epoch) => Some(epoch)
    case MarkReady(epoch) => Some(epoch)
    case RequireFreshBootstrap(epoch) => Some(epoch)
    case Upsert(epoch, _, _) => Some(epoch)
    case Disconnect(epoch) => Some(epoch)
    case Get => None
  }

  /** The epoch is over: superseded, or disconnected. */
  predicate Over(o: Option<Entry>, epoch: nat) {
    o.Some? && (o.value.epoch > epoch || (o.value.epoch == epoch && !o.value.connected))
  }

  lemma StaysOver(o: Option<Entry>, c: Call, now: int, timeout: int, epoch: nat)
    requires Over(o, epoch)
    ensures Over(Applied(o, c, now, timeout), epoch)
  {
  }

  lemma OverRefuses(o: Option<Entry>, timeout: int, epoch: nat, c: Call, now: int)
    requires Over(o, epoch) && EpochOf(c) == Some(epoch)
    ensures Applied(o, c, now, timeout) == o
  {
  }

  /** An epoch that is over stays over, and no call that carries it changes the entry again. */
  lemma {:induction false} OverIsForever(w: World, ss: seq<Step>, timeout: int, epoch: nat, c: Call, now: int)
    requires Over(w.o, epoch) && EpochOf(c) == Some(epoch)
    ensures var o := Final(w, ss, timeout).o; Over(o, epoch) && Applied(o, c, now, timeout) == o
    decreases |ss|
  {
    if ss == [] {
      OverRefuses(w.o, timeout, epoch, c, now);
    } else {
      StaysOver(w.o, ss[0].call, ss[0].now, timeout, epoch);
      OverIsForever(Next(w, ss[0], timeout), ss[1..], timeout, epoch, c, now);
    }
  }

  /** Within an epoch the runtime sequence never goes back, and epochs never do. */
  lemma {:induction false} SequenceGrows(w: World, ss: seq<Step>, timeout: int)
    requires w.o.Some?
    ensures var o := Final(w, ss, timeout).o;
            && o.Some? && o.value.epoch >= w.o.value.epoch
            && (o.value.epoch == w.o.value.epoch ==> o.value.sequence >= w.o.value.sequence)
    decreases |ss|
  {
    if ss != [] {
      StepGrows(w, ss[0], timeout);
      SequenceGrows(Next(w, ss[0], timeout), ss[1..], timeout);
    }
  }

  // ---- the guards' view --------------------------------------------------------------

  /** The part of an entry that the in-flight guards go by. */
  function BookOf(o: Option<Entry>, inFlight: map<Guards.Key, nat>): Guards.Book {
    if o.None? then Guards.Book(0, false, false, 0, inFlight)
    else Guards.Book(o.value.epoch, o.value.connected, o.value.recent, o.value.sequence, inFlight)
  }

  /** The coordinator's handlers, each a critical section under the Host lock. */
  datatype Handler =
    | Connecting(agent: nat, epoch: nat)
    | Disconnecting(epoch: nat)
    | Observing(epoch: nat, executions: seq<Execution>, mark: nat)
    | Answering(key: Guards.Key, sequence: nat, execution: Execution, answer: Guards.Answer)
    | Demanding(epoch: nat)
    | Asking

  datatype Side = Side(o: Option<Entry>, inFlight: map<Guards.Key, nat>)

  /** RuntimeResult: an entry that is still fresh decides, and an accepted upsert releases the guard. */
  function AnswerHandled(s: Side, key: Guards.Key, sequence: nat, e: Execution, answer: Guards.Answer, now: int,
                         timeout: int): Side {
    var o := Applied(s.o, Get, now, timeout);
    if !Current(o, key.epoch) || !o.value.recent then Side(o, s.inFlight - {key})
    else
      match answer
      case Uncertain => Side(o, s.inFlight)
      case Rejected => Side(o, s.inFlight - {key})
      case Executed =>
        var u := Applied(o, Upsert(key.epoch, e, sequence), now, timeout);
        Side(u, if sequence >= o.value.sequence then s.inFlight - {key} else s.inFlight)
      case ExecutedUnsaved => Side(Applied(o, Upsert(key.epoch, e, sequence), now, timeout), s.inFlight)
  }

  /** A handler on the store and the guards beside it. */
  function Handled(s: Side, h: Handler, now: int, timeout: int): Side {
    match h
    case Connecting(agent, epoch) => s.(o := Applied(s.o, Connect(agent, epoch), now, timeout))
    case Disconnecting(epoch) =>
      Side(Applied(s.o, Disconnect(epoch), now, timeout), Guards.EpochDropped(s.inFlight, epoch))
    case Observing(epoch, executions, mark) =>
      Side(Applied(s.o, SetExecutions(epoch, executions, mark), now, timeout),
           if Current(s.o, epoch) && mark >= s.o.value.sequence then Guards.Resolved(s.inFlight, epoch, mark)
           else s.inFlight)
    case Answering(key, sequence, e, answer) => AnswerHandled(s, key, sequence, e, answer, now, timeout)
    case Demanding(epoch) => s.(o := Applied(s.o, RequireFreshBootstrap(epoch), now, timeout))
    case Asking => s.(o := Applied(s.o, Get, now, timeout))
  }

  /** The same handler on the guards' book; `lapsed` when the observation is found too old. */
  function Booked(b: Guards.Book, h: Handler, lapsed: bool): Guards.Book {
    var a := if lapsed then b.(current := false) else b;
    match h
    case Connecting(_, epoch) => if epoch <= b.epoch then b else Guards.Book(epoch, true, false, 0, b.inFlight)
    case Disconnecting(epoch) => Guards.Disconnected(b, epoch)
    case Observing(epoch, _, mark) => Guards.Observed(b, epoch, mark)
    case Answering(key, sequence, _, answer) => Guards.Answered(a, key, sequence, answer)
    case Demanding(epoch) => if b.epoch == epoch && b.connected then b.(current := false) else b
    case Asking => a
  }

  predicate Sound(s: Side) { s.o.Some? && s.o.value.recent ==> s.o.value.connected }

  predicate Lapsed(o: Option<Entry>, now: int, timeout: int) { o.Some? && Expired(o.value.freshAt, now, timeout) }

  lemma AnswerRefinesBook(s: Side, key: Guards.Key, sequence: nat, e: Execution, answer: Guards.Answer, now: int,
                          timeout: int)
    requires Sound(s)
    ensures var u := AnswerHandled(s, key, sequence, e, answer, now, timeout);
            Sound(u) && BookOf(u.o, u.inFlight)
                        == Booked(BookOf(s.o, s.inFlight), Answering(key, sequence, e, answer),
                                  Lapsed(s.o, now, timeout))
  {
  }

  lemma HandlerRefinesBook(s: Side, h: Handler, now: int, timeout: int)
    requires Sound(s) && (h.Connecting? ==> h.epoch > 0)
    ensures Sound(Handled(s, h, now, timeout))
    ensures var u := Handled(s, h, now, timeout);
            BookOf(u.o, u.inFlight) == Booked(BookOf(s.o, s.inFlight), h, Lapsed(s.o, now, timeout))
  {
    if h.Answering? { AnswerRefinesBook(s, h.key, h.sequence, h.execution, h.answer, now, timeout); }
  }

  datatype Turn = Turn(handler: Handler, now: int)

  function HandledAll(s: Side, ts: seq<Turn>, timeout: int): Side
    decreases |ts|
  {
    if ts == [] then s else HandledAll(Handled(s, ts[0].handler, ts[0].now, timeout), ts[1..], timeout)
  }

  function BookedAll(b: Guards.Book, ts: seq<Turn>, lapses: seq<bool>): Guards.Book
    requires |lapses| == |ts|
    decreases |ts|
  {
    if ts == [] then b else BookedAll(Booked(b, ts[0].handler, lapses[0]), ts[1..], lapses[1..])
  }

  /**
   What the guards go by after any run of handlers over the store is a run of the
   same handlers over the guards' book, with the observation lapsing at some of them.
   */
  lemma {:induction false} StoreRefinesBook(s: Side, ts: seq<Turn>, timeout: int)
    requires Sound(s) && forall t :: t in ts && t.handler.Connecting? ==> t.handler.epoch > 0
    ensures var u := HandledAll(s, ts, timeout);
            exists lapses :: |lapses| == |ts|
              && BookOf(u.o, u.inFlight) == BookedAll(BookOf(s.o, s.inFlight), ts, lapses)
    decreases |ts|
  {
    var u := HandledAll(s, ts, timeout);
    if ts == [] {
      assert BookOf(u.o, u.inFlight) == BookedAll(BookOf(s.o, s.inFlight), ts, []);
    } else {
      var next, lapsed := Handled(s, ts[0].handler, ts[0].now, timeout), Lapsed(s.o, ts[0].now, timeout);
      HandlerRefinesBook(s, ts[0].handler, ts[0].now, timeout);
      StoreRefinesBook(next, ts[1..], timeout);
      var rest :| |rest| == |ts| - 1
                  && BookOf(u.o, u.inFlight) == BookedAll(BookOf(next.o, next.inFlight), ts[1..], rest);
      assert ([lapsed] + rest)[1..] == rest;
      assert BookOf(u.o, u.inFlight) == BookedAll(BookOf(s.o, s.inFlight), ts, [lapsed] + rest);
    }
  }
}
