/**
 Maintenance Hold of one Host, from the stored row through the transport to the
 Agent. The authority lock keeps reconciliation and changes of the hold apart; the
 maintenance lock makes a change and the hello of a new session exclude each other.
 */
module Maintenance {
  import opened Common
  import Supervisor

  type Gate = Supervisor.Gate

  function HoldApplied(g: Gate, m: Message): Gate { Supervisor.HoldApplied(g, m.active, m.revision) }

  datatype Row = Row(active: bool, revision: nat, reason: string)

  datatype Outcome = Set(row: Row) | RevisionConflict

  function Revision(row: Option<Row>): nat { if row.Some? then row.value.revision else 0 }

  predicate Active(row: Option<Row>) { row.Some? && row.value.active }

  /** SetMaintenanceHold of the store: revision zero stands for an absent row. */
  function Stored(row: Option<Row>, expected: nat, active: bool, reason: string): Outcome {
    if Revision(row) != expected then RevisionConflict
    else if row.Some? && row.value.active == active && row.value.reason == reason then Set(row.value)
    else Set(Row(active, expected + 1, reason))
  }

  /** A request is accepted exactly under the current revision, and then the row holds what was asked for. */
  lemma SetStoresWhatWasAsked(row: Option<Row>, expected: nat, active: bool, reason: string)
    ensures var r := Stored(row, expected, active, reason);
            && (r.Set? <==> expected == match row case None => 0 case Some(current) => current.revision)
            && (r.Set? ==> r.row.active == active && r.row.reason == reason)
            && (r.Set? ==>
                  var same := row.Some? && row.value.active == active && row.value.reason == reason;
                  r.row.revision == if same then expected else expected + 1)
  {
  }

  class HoldTable {
    var row: Option<Row>

    predicate Valid()
      reads this
    {
      row.Some? ==> row.value.revision >= 1
    }

    constructor ()
      ensures row == None && Valid()
    {
      row := None;
    }

    method SetMaintenanceHold(expected: nat, active: bool, reason: string) returns (r: Outcome)
      requires Valid()
      modifies this
      ensures Valid() && r == Stored(old(row), expected, active, reason)
      ensures row == if r.Set? then Some(r.row) else old(row)
      ensures r.Set? <==> expected == if old(row).Some? then old(row).value.revision else 0
      ensures r.Set? ==> row.Some? && row.value.active == active && row.value.reason == reason
      ensures r.Set? ==>
                row.value.revision == expected + if old(row).Some? && old(row).value == row.value then 0 else 1
    {
      match row
      case None =>
        if expected != 0 { return RevisionConflict; }
        row := Some(Row(active, 1, reason));
        return Set(row.value);
      case Some(current) =>
        if current.revision != expected { return RevisionConflict; }
        if current.active == active && current.reason == reason { return Set(current); }
        row := Some(Row(active, current.revision + 1, reason));
        return Set(row.value);
    }
  }

  // ---- the protocol -------------------------------------------------------------

  /** `aware` is the latest revision sent on the session. */
  datatype Session = Session(revoked: bool, aware: nat)

  datatype Message = Message(active: bool, revision: nat)

  /** Where SetMaintenanceHold stands, and where the Connect that holds the maintenance lock does. */
  datatype Setter = Idle | Waiting | Locked | Published | Notified(sent: bool)

  /** `past` names the hold of every stored revision; `starts` whether one was stored as each START was sent. */
  datatype World = World(row: Option<Row>, readers: map<nat, bool>, setter: Setter, connecting: Option<Message>,
                         session: Option<Session>, mail: set<Message>, agent: Gate, past: map<nat, bool>,
                         starts: seq<bool>)

  datatype Event =
    | ReadLock(w: nat)                                  // ReconcileHost takes the authority read lock
    | Check(w: nat)                                     // actionStillCurrent reads the hold
    | SendStart(w: nat)
    | ReadUnlock(w: nat)
    | WriteLock                                         // SetMaintenanceHold takes the authority write lock
    | Acquire                                           //   and the maintenance lock
    | Persist(expected: nat, active: bool, reason: string)
    | Notify(delivered: bool)                           //   sends to the session, or fails, reaching the Agent or
                                                        //   not, and revokes it
    | Release
    | ConnectAcquire                                    // Connect takes the maintenance lock and reads the row
    | ConnectHello(delivered: bool)                     //   registers the session, sends hello, unlocks
    | Revoke
    | Leave                                             // the session ends
    | Receive(m: Message)                               // the Agent applies a message, in any order, repeatedly
    | Restart                                           // the Agent process is replaced

  const Initial := World(None, map[], Idle, None, None, {}, Supervisor.Gate(false, 0, false), map[0 := false], [])

  predicate Unlocked(w: World) { w.setter in {Idle, Waiting} && w.connecting == None }

  predicate Live(w: World) { w.session.Some? && !w.session.value.revoked }

  function Next(w: World, e: Event): World {
    match e
    case ReadLock(r) => if w.setter.Idle? && r !in w.readers then w.(readers := w.readers[r := false]) else w
    case Check(r) => if r in w.readers then w.(readers := w.readers[r := !Active(w.row)]) else w
    case SendStart(r) => if r in w.readers && w.readers[r] then w.(starts := w.starts + [Active(w.row)]) else w
    case ReadUnlock(r) => w.(readers := w.readers - {r})
    case WriteLock => if w.setter.Idle? && w.readers == map[] then w.(setter := Waiting) else w
    case Acquire => if w.setter.Waiting? && Unlocked(w) then w.(setter := Locked) else w
    case Persist(expected, active, reason) =>
      if !w.setter.Locked? then w
      else
        var r := Stored(w.row, expected, active, reason);
        if r.RevisionConflict? then w.(setter := Notified(false))
        else w.(row := Some(r.row), setter := Published, past := w.past[r.row.revision := r.row.active])
    case Notify(delivered) =>
      if !w.setter.Published? || w.row.None? then w
      else if !Live(w) then w.(setter := Notified(false))
      else if delivered then
        w.(setter := Notified(true), session := Some(Session(false, w.row.value.revision)),
           mail := w.mail + {Message(w.row.value.active, w.row.value.revision)})
      else
        w.(setter := Notified(false), session := Some(Session(true, w.session.value.aware)),
           mail := w.mail + {Message(w.row.value.active, w.row.value.revision)})
    case Release => if w.setter.Notified? then w.(setter := Idle) else w
    case ConnectAcquire =>
      if Unlocked(w) && !Live(w) then w.(connecting := Some(Message(Active(w.row), Revision(w.row)))) else w
    case ConnectHello(delivered) =>
      if w.connecting.None? then w
      else
        var m := w.connecting.value;
        if delivered then w.(connecting := None, session := Some(Session(false, m.revision)), mail := w.mail + {m})
        else w.(connecting := None, session := None, mail := w.mail + {m})
    case Revoke => if w.session.Some? then w.(session := Some(w.session.value.(revoked := true))) else w
    case Leave => w.(session := None)
    case Receive(m) => if m in w.mail then w.(agent := HoldApplied(w.agent, m)) else w
    case Restart => w.(agent := Supervisor.Gate(false, 0, false), mail := {})
  }

  function Final(w: World, es: seq<Event>): World
    decreases |es|
  {
    if es == [] then w else Final(Next(w, es[0]), es[1..])
  }

  /** What the Controller once stored under a revision. */
  predicate Genuine(w: World, active: bool, revision: nat) {
    revision in w.past && w.past[revision] == active && revision <= Revision(w.row)
  }

  predicate Inv(w: World) {
    && (!w.setter.Idle? ==> w.readers == map[])
    && (forall r :: r in w.readers && w.readers[r] ==> !Active(w.row))
    && (w.setter !in {Idle, Waiting} ==> w.connecting == None)
    && (w.connecting.Some? ==> w.connecting.value == Message(Active(w.row), Revision(w.row)))
    && (Live(w) && !w.setter.Published? ==> w.session.value.aware == Revision(w.row))
    && (w.setter.Published? ==> w.row.Some?)
    && (w.row.Some? ==> w.row.value.revision >= 1)
    && Genuine(w, Active(w.row), Revision(w.row)) && Genuine(w, false, 0)
    && (forall m :: m in w.mail ==> Genuine(w, m.active, m.revision))
    && Genuine(w, w.agent.held, w.agent.revision)
    && (forall held :: held in w.starts ==> !held)
  }

  lemma PersistKeeps(w: World, expected: nat, active: bool, reason: string)
    requires Inv(w)
    ensures Inv(Next(w, Persist(expected, active, reason)))
  {
  }

  lemma NotifyKeeps(w: World, delivered: bool)
    requires Inv(w)
    ensures Inv(Next(w, Notify(delivered))) && Inv(Next(w, ConnectHello(delivered)))
  {
  }

  lemma StepKeeps(w: World, e: Event)
    requires Inv(w)
    ensures Inv(Next(w, e))
  {
    match e
    case Persist(expected, active, reason) => PersistKeeps(w, expected, active, reason);
    case Notify(delivered) => NotifyKeeps(w, delivered);
    case ConnectHello(delivered) => NotifyKeeps(w, delivered);
    case _ =>
  }

  lemma {:induction false} RunKeeps(w: World, es: seq<Event>)
    requires Inv(w)
    ensures Inv(Final(w, es))
    decreases |es|
  {
    if es != [] {
      StepKeeps(w, es[0]);
      RunKeeps(Next(w, es[0]), es[1..]);
    }
  }

  /** No START is ever handed to the transport while a hold is active in the store. */
  lemma NoStartUnderHold(es: seq<Event>)
    ensures forall held :: held in Final(Initial, es).starts ==> !held
  {
    RunKeeps(Initial, es);
  }

  /** The request is accepted: it holds the locks and names the current revision. */
  predicate Accepted(w: World, e: Event) {
    e.Persist? && w.setter == Locked && e.expected == (if w.row.Some? then w.row.value.revision else 0)
  }

  /** No request to release the hold is accepted on the way. */
  predicate Unreleased(w: World, es: seq<Event>)
    decreases |es|
  {
    es == [] || (!(Accepted(w, es[0]) && !es[0].active) && Unreleased(Next(w, es[0]), es[1..]))
  }

  lemma {:induction false} HeldSendsNothing(w: World, es: seq<Event>)
    requires Inv(w) && Active(w.row) && Unreleased(w, es)
    ensures Final(w, es).starts == w.starts && Active(Final(w, es).row)
    decreases |es|
  {
    if es != [] {
      StepKeeps(w, es[0]);
      if es[0].Persist? { SetStoresWhatWasAsked(w.row, es[0].expected, es[0].active, es[0].reason); }
      HeldSendsNothing(Next(w, es[0]), es[1..]);
    }
  }

  /** Once a hold was asked for and accepted, no START is sent until a release is accepted, whatever happens. */
  lemma AskedHoldStopsStarts(es: seq<Event>, e: Event, fs: seq<Event>)
    requires var w := Final(Initial, es); Accepted(w, e) && e.active && Unreleased(Next(w, e), fs)
    ensures var w := Final(Initial, es);
            var u := Final(Next(w, e), fs);
            && u.starts == w.starts && u.row.Some? && u.row.value.active
            && Next(w, e).row.value.reason == e.reason
  {
    var w := Final(Initial, es);
    RunKeeps(Initial, es);
    SetStoresWhatWasAsked(w.row, e.expected, e.active, e.reason);
    StepKeeps(w, e);
    HeldSendsNothing(Next(w, e), fs);
  }

  lemma FinalOn(w: World, e: Event, es: seq<Event>)
    ensures Final(w, [e] + es) == Final(Next(w, e), es)
  {
    assert ([e] + es)[1..] == es;
  }

  /** Without a hold a reader's START goes out, while no change of the hold is under way. */
  lemma StartsWithoutHold(w: World, r: nat)
    requires w.setter == Idle && r !in w.readers && (w.row.Some? ==> !w.row.value.active)
    ensures Final(w, [ReadLock(r)] + ([Check(r)] + ([SendStart(r)] + ([ReadUnlock(r)] + []))))
         == w.(starts := w.starts + [false])
  {
    FinalOn(w, ReadLock(r), [Check(r)] + ([SendStart(r)] + ([ReadUnlock(r)] + [])));
    var a := Next(w, ReadLock(r));
    FinalOn(a, Check(r), [SendStart(r)] + ([ReadUnlock(r)] + []));
    FinalOn(Next(a, Check(r)), SendStart(r), [ReadUnlock(r)] + []);
    FinalOn(Next(Next(a, Check(r)), SendStart(r)), ReadUnlock(r), []);
  }

  /** The calls of SetMaintenanceHold in order. */
  function Setting(expected: nat, active: bool, reason: string): seq<Event> {
    [WriteLock] + ([Acquire] + ([Persist(expected, active, reason)] + ([Notify(true)] + ([Release] + []))))
  }

  /** Stored, it is sent on the live session and the locks are free again. */
  lemma NotifyingTakesEffect(w: World)
    requires w.setter == Published && w.row.Some? && Live(w)
    ensures var u := Final(w, [Notify(true)] + ([Release] + []));
            && u.setter == Idle && u.row == w.row && u.session == Some(Session(false, w.row.value.revision))
            && Message(w.row.value.active, w.row.value.revision) in u.mail
  {
    FinalOn(w, Notify(true), [Release] + []);
    FinalOn(Next(w, Notify(true)), Release, []);
  }

  lemma PersistingTakesEffect(w: World, active: bool, reason: string)
    requires w.setter == Locked
    ensures var u := Next(w, Persist(Revision(w.row), active, reason));
            && u.setter == Published && u.row.Some? && u.session == w.session
            && u.row.value.active == active && u.row.value.reason == reason
  {
    SetStoresWhatWasAsked(w.row, Revision(w.row), active, reason);
  }

  /** Undisturbed on a live session, a change is stored, sent under its revision and leaves the locks free. */
  lemma SettingTakesEffect(w: World, active: bool, reason: string)
    requires w.setter == Idle && w.readers == map[] && w.connecting == None && Live(w)
    ensures var u := Final(w, Setting(Revision(w.row), active, reason));
            && u.setter == Idle && u.row.Some? && u.row.value.active == active && u.row.value.reason == reason
            && u.session == Some(Session(false, u.row.value.revision))
            && Message(active, u.row.value.revision) in u.mail
  {
    var n := Revision(w.row);
    var rest := [Notify(true)] + ([Release] + []);
    var a := w.(setter := Locked);
    assert Next(Next(w, WriteLock), Acquire) == a;
    FinalOn(w, WriteLock, [Acquire] + ([Persist(n, active, reason)] + rest));
    FinalOn(Next(w, WriteLock), Acquire, [Persist(n, active, reason)] + rest);
    FinalOn(a, Persist(n, active, reason), rest);
    PersistingTakesEffect(a, active, reason);
    NotifyingTakesEffect(Next(a, Persist(n, active, reason)));
  }

  /** And a new session learns it in hello. */
  lemma HelloTellsTheHold(w: World)
    requires w.setter == Idle && w.connecting == None && !Live(w)
    ensures var u := Final(w, [Leave] + ([ConnectAcquire] + ([ConnectHello(true)] + [])));
            && u.row == w.row && u.session == Some(Session(false, Revision(w.row)))
            && Message(Active(w.row), Revision(w.row)) in u.mail
  {
    FinalOn(w, Leave, [ConnectAcquire] + ([ConnectHello(true)] + []));
    var a := Next(w, Leave);
    FinalOn(a, ConnectAcquire, [ConnectHello(true)] + []);
    FinalOn(Next(a, ConnectAcquire), ConnectHello(true), []);
  }

  /** Between changes every live session was sent the latest revision, in hello or after it. */
  lemma LiveSessionsAreAware(es: seq<Event>)
    requires var w := Final(Initial, es); Live(w) && !w.setter.Published?
    ensures var w := Final(Initial, es); w.session.value.aware == Revision(w.row)
  {
    RunKeeps(Initial, es);
  }

  /**
   The Agent never believes a hold the Controller did not store, and at the latest revision
   it agrees with the store.
   */
  lemma AgentAgrees(es: seq<Event>)
    ensures var w := Final(Initial, es);
            && w.agent.revision <= Revision(w.row)
            && (w.agent.revision == Revision(w.row) ==> w.agent.held == Active(w.row))
  {
    RunKeeps(Initial, es);
  }

  /** The step neither changes the stored hold nor replaces the Agent. */
  predicate KeepsHold(row: Option<Row>, e: Event) {
    && e != Restart
    && (e.Persist? ==>
          || Stored(row, e.expected, e.active, e.reason) == RevisionConflict
          || Some(Stored(row, e.expected, e.active, e.reason).row) == row)
  }

  /**
   Once the Agent has applied the stored revision of an active hold it stays held
   through every further step, until the store moves to another revision or the
   Agent is replaced.
   */
  lemma {:induction false} AgentStaysHeld(w: World, es: seq<Event>)
    requires Inv(w) && Active(w.row) && w.agent.held && w.agent.revision == w.row.value.revision
    requires forall e :: e in es ==> KeepsHold(w.row, e)
    ensures Final(w, es).agent == w.agent
    decreases |es|
  {
    if es != [] {
      StepKeeps(w, es[0]);
      assert KeepsHold(w.row, es[0]);
      assert Next(w, es[0]).row == w.row;
      assert Next(w, es[0]).agent == w.agent;
      AgentStaysHeld(Next(w, es[0]), es[1..]);
    }
  }

  // ---- any order of messages -----------------------------------------------------

  function Applied(g: Gate, ms: seq<Message>): Gate
    decreases |ms|
  {
    if ms == [] then g else Applied(HoldApplied(g, ms[0]), ms[1..])
  }

  /** Messages of one history: a revision names one hold. */
  predicate OfHistory(past: map<nat, bool>, g: Gate, ms: seq<Message>) {
    && g.revision in past && past[g.revision] == g.held
    && forall m :: m in ms ==> m.revision in past && past[m.revision] == m.active
  }

  /** Whatever the order and repetition, the Agent ends at the greatest revision and at the hold it names. */
  lemma {:induction false} GreatestRevisionWins(past: map<nat, bool>, g: Gate, ms: seq<Message>)
    requires OfHistory(past, g, ms)
    ensures Applied(g, ms).revision >= g.revision && forall m :: m in ms ==> m.revision <= Applied(g, ms).revision
    ensures Applied(g, ms).revision == g.revision || exists m :: m in ms && m.revision == Applied(g, ms).revision
    ensures Applied(g, ms).revision in past && Applied(g, ms).held == past[Applied(g, ms).revision]
    decreases |ms|
  {
    if ms != [] {
      var h := HoldApplied(g, ms[0]);
      assert ms == [ms[0]] + ms[1..];
      GreatestRevisionWins(past, h, ms[1..]);
      if h.revision == Applied(h, ms[1..]).revision && h.revision != g.revision { assert ms[0] in ms; }
    }
  }

  lemma OrderDoesNotMatter(past: map<nat, bool>, g: Gate, ms: seq<Message>, ns: seq<Message>)
    requires OfHistory(past, g, ms) && forall m :: m in ms <==> m in ns
    ensures Applied(g, ms).held == Applied(g, ns).held && Applied(g, ms).revision == Applied(g, ns).revision
  {
    GreatestRevisionWins(past, g, ms);
    GreatestRevisionWins(past, g, ns);
  }
}
