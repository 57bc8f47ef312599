/** The stored incidents: one row for every identity, active or resolved. */
module IncidentStore {
  import opened Common
  import opened Incidents

  datatype Incident = Incident(active: bool, severity: Severity, first: int, last: int, resolvedAt: Option<int>,
                               count: nat)

  type Table = map<Id, Incident>

  predicate IsGiven(cs: seq<Condition>, id: Id) { exists c :: c in cs && c.id == id }

  function SeverityOf(cs: seq<Condition>, id: Id): Severity
    requires IsGiven(cs, id)
  {
    if cs[0].id == id then cs[0].severity
    else
      assert cs == [cs[0]] + cs[1..];
      SeverityOf(cs[1..], id)
  }

  function Resolved(x: Incident, now: int): Incident { x.(active := false, last := now, resolvedAt := Some(now)) }

  /** The condition shows: a new row, an active one again, or one more observation. */
  function Shown(t: Table, id: Id, severity: Severity, now: int): Incident {
    if id !in t then Incident(true, severity, now, now, None, 1)
    else if t[id].active then t[id].(severity := severity, last := now)
    else t[id].(severity := severity, active := true, last := now, resolvedAt := None, count := t[id].count + 1)
  }

  predicate Falls(t: Table, host: nat, cs: seq<Condition>, resolvable: set<Kind>, id: Id)
    requires id in t
  {
    t[id].active && id.host == host && id.kind in resolvable && !IsGiven(cs, id)
  }

  /** Absent conditions are resolved as far as the pass has authority over their kind. */
  function Settled(t: Table, host: nat, cs: seq<Condition>, resolvable: set<Kind>, now: int): Table {
    map id | id in t :: if Falls(t, host, cs, resolvable, id) then Resolved(t[id], now) else t[id]
  }

  /** ReconcileIncidents, when it commits. */
  function Reconciled(t: Table, host: nat, cs: seq<Condition>, resolvable: set<Kind>, now: int): Table {
    Settled(t, host, cs, resolvable, now) + ShownAll(t, cs, now)
  }

  function ShownAll(t: Table, cs: seq<Condition>, now: int): Table {
    map id | id in Ids(cs) && IsGiven(cs, id) :: Shown(t, id, SeverityOf(cs, id), now)
  }

  function Ids(cs: seq<Condition>): set<Id> { set c | c in cs :: c.id }

  predicate Acceptable(host: nat, cs: seq<Condition>) { DistinctIds(cs) && forall c :: c in cs ==> c.id.host == host }

  function Deleted(t: Table, workload: nat, now: int): Table {
    map id | id in t :: if t[id].active && id.workload == Some(workload) then Resolved(t[id], now) else t[id]
  }

  class Store {
    var incidents: Table

    /** `authority` tells whether the persistent facts the evaluation saw are still the stored ones. */
    method ReconcileIncidents(host: nat, authority: bool, cs: seq<Condition>, resolvable: set<Kind>, now: int)
      returns (ok: bool)
      modifies this
      ensures ok <==> Acceptable(host, cs) && authority
      ensures incidents == if ok then Reconciled(old(incidents), host, cs, resolvable, now) else old(incidents)
    {
      var valid := CheckConditions(host, cs);
      if !valid || !authority { return false; }
      ghost var was := incidents;
      ResolveAbsent(host, cs, resolvable, now);
      ghost var settled := incidents;
      ShowAll(cs, now);
      ReconciledIs(was, settled, incidents, host, cs, resolvable, now);
      return true;
    }

    method ResolveAbsent(host: nat, cs: seq<Condition>, resolvable: set<Kind>, now: int)
      modifies this
      ensures incidents == Settled(old(incidents), host, cs, resolvable, now)
    {
      ghost var was := incidents;
      var todo := incidents.Keys;
      while todo != {}
        invariant todo <= was.Keys && incidents.Keys == was.Keys
        invariant forall id :: id in was ==>
                    incidents[id] ==
                    if id !in todo && Falls(was, host, cs, resolvable, id) then Resolved(was[id], now) else was[id]
        decreases |todo|
      {
        var id :| id in todo;
        if incidents[id].active && id.host == host && id.kind in resolvable && !IsGiven(cs, id) {
          incidents := incidents[id := Resolved(incidents[id], now)];
        }
        todo := todo - {id};
      }
    }

    method ShowAll(cs: seq<Condition>, now: int)
      requires DistinctIds(cs)
      modifies this
      ensures incidents.Keys == old(incidents).Keys + Ids(cs)
      ensures forall id :: id in old(incidents) && id !in Ids(cs) ==> incidents[id] == old(incidents)[id]
      ensures forall j :: 0 <= j < |cs| ==>
                cs[j].id in incidents && incidents[cs[j].id] == Shown(old(incidents), cs[j].id, cs[j].severity, now)
    {
      ghost var was := incidents;
      for i := 0 to |cs|
        invariant incidents.Keys == was.Keys + Ids(cs[..i])
        invariant forall id :: id in was && id !in Ids(cs[..i]) ==> incidents[id] == was[id]
        invariant forall j :: 0 <= j < i ==>
                    cs[j].id in incidents && incidents[cs[j].id] == Shown(was, cs[j].id, cs[j].severity, now)
      {
        var id := cs[i].id;
        NotYetShown(cs, i);
        if id !in incidents {
          incidents := incidents[id := Incident(true, cs[i].severity, now, now, None, 1)];
        } else if !incidents[id].active {
          var x := incidents[id];
          var again := x.(severity := cs[i].severity, active := true, last := now, resolvedAt := None,
                          count := x.count + 1);
          incidents := incidents[id := again];
        } else {
          incidents := incidents[id := incidents[id].(severity := cs[i].severity, last := now)];
        }
      }
      assert cs[..|cs|] == cs;
    }

    method CheckConditions(host: nat, cs: seq<Condition>) returns (ok: bool)
      ensures ok <==> Acceptable(host, cs)
    {
      var seen: set<Id> := {};
      for i := 0 to |cs|
        invariant seen == Ids(cs[..i]) && Acceptable(host, cs[..i])
      {
        assert cs[..i + 1] == cs[..i] + [cs[i]];
        if cs[i].id.host != host {
          assert cs[i] in cs;
          return false;
        }
        if cs[i].id in seen {
          var c :| c in cs[..i] && c.id == cs[i].id;
          var j :| 0 <= j < i && cs[j] == c;
          assert cs[j].id == cs[i].id;
          return false;
        }
        forall j | 0 <= j < i ensures cs[j].id != cs[i].id { assert cs[j] in cs[..i]; }
        seen := seen + {cs[i].id};
      }
      assert cs[..|cs|] == cs;
      return true;
    }

    method DeleteWorkload(workload: nat, now: int)
      modifies this
      ensures incidents == Deleted(old(incidents), workload, now)
    {
      incidents :=
        map id | id in incidents ::
          if incidents[id].active && id.workload == Some(workload) then Resolved(incidents[id], now) else incidents[id];
    }
  }

  lemma NotYetShown(cs: seq<Condition>, i: nat)
    requires DistinctIds(cs) && i < |cs|
    ensures cs[i].id !in Ids(cs[..i]) && Ids(cs[..i + 1]) == Ids(cs[..i]) + {cs[i].id}
  {
    assert cs[..i + 1] == cs[..i] + [cs[i]];
    forall c | c in cs[..i] ensures c.id != cs[i].id { var j :| 0 <= j < i && cs[j] == c; }
  }

  lemma {:induction false} SeveritiesAre(cs: seq<Condition>)
    requires DistinctIds(cs)
    ensures forall j :: 0 <= j < |cs| ==> IsGiven(cs, cs[j].id) && SeverityOf(cs, cs[j].id) == cs[j].severity
  {
    if cs != [] {
      SeveritiesAre(cs[1..]);
      forall j | 0 <= j < |cs| ensures IsGiven(cs, cs[j].id) && SeverityOf(cs, cs[j].id) == cs[j].severity {
        assert cs[j] in cs;
        if j > 0 { assert cs[1..][j - 1] == cs[j]; }
      }
    }
  }

  lemma ReconciledIs(was: Table, settled: Table, after: Table, host: nat, cs: seq<Condition>, resolvable: set<Kind>,
                     now: int)
    requires DistinctIds(cs) && settled == Settled(was, host, cs, resolvable, now)
    requires after.Keys == settled.Keys + Ids(cs)
    requires forall id :: id in settled && id !in Ids(cs) ==> after[id] == settled[id]
    requires forall j :: 0 <= j < |cs| ==>
               cs[j].id in after && after[cs[j].id] == Shown(settled, cs[j].id, cs[j].severity, now)
    ensures after == Reconciled(was, host, cs, resolvable, now)
  {
    var b := Reconciled(was, host, cs, resolvable, now);
    SeveritiesAre(cs);
    forall j | 0 <= j < |cs| ensures cs[j].id in b && after[cs[j].id] == b[cs[j].id] {
      assert cs[j].id in ShownAll(was, cs, now);
    }
    assert ShownAll(was, cs, now).Keys == Ids(cs) by {
      forall id | id in Ids(cs) ensures IsGiven(cs, id) { }
    }
    SameTable(after, b, was, cs);
  }

  lemma SameTable(a: Table, b: Table, was: Table, cs: seq<Condition>)
    requires a.Keys == was.Keys + Ids(cs) && b.Keys == was.Keys + Ids(cs)
    requires forall id :: id in was && id !in Ids(cs) ==> a[id] == b[id]
    requires forall j :: 0 <= j < |cs| ==> a[cs[j].id] == b[cs[j].id]
    ensures a == b
  {
    forall id | id in a ensures a[id] == b[id] {
      if id in Ids(cs) { var j :| 0 <= j < |cs| && cs[j].id == id; }
    }
  }

  // ---- lifecycle ------------------------------------------------------------------------

  predicate Active(t: Table, id: Id) { id in t && t[id].active }

  /**
   After a pass the Host's active incidents are exactly the given conditions and
   those active before whose kind the pass had no authority to resolve.
   */
  lemma ActiveExactly(t: Table, host: nat, cs: seq<Condition>, resolvable: set<Kind>, now: int, id: Id)
    requires Acceptable(host, cs) && id.host == host
    ensures Active(Reconciled(t, host, cs, resolvable, now), id) <==>
            IsGiven(cs, id) || (Active(t, id) && id.kind !in resolvable)
  {
  }

  /** A pass leaves the incidents of other Hosts alone. */
  lemma OtherHostsUntouched(t: Table, host: nat, cs: seq<Condition>, resolvable: set<Kind>, now: int, id: Id)
    requires Acceptable(host, cs) && id.host != host
    ensures var u := Reconciled(t, host, cs, resolvable, now); (id in u <==> id in t) && (id in u ==> u[id] == t[id])
  {
  }

  /**
   An incident other than a hold resolves in a pass only if that pass saw its Host
   connected, ready and fresh in everything.
   */
  lemma ResolvedOnlyWhenFresh(t: Table, i: Input, now: int, id: Id)
    requires WellFormed(i) && Active(t, id) && id.kind != Hold
    requires var e := Evaluated(i); !Active(Reconciled(t, i.host, e.conditions, e.resolvable, now), id)
    ensures id.host == i.host && FullyFresh(i) && !IsGiven(Evaluated(i).conditions, id)
  {
    EvaluatedIsDistinct(i);
  }

  datatype Event = Pass(input: Input, authority: bool, now: int) | Delete(workload: nat, now: int)

  function Next(t: Table, e: Event): Table {
    match e
    case Pass(i, authority, now) =>
      var v := Evaluated(i);
      if Acceptable(i.host, v.conditions) && authority then
        Reconciled(t, i.host, v.conditions, v.resolvable, now)
      else t
    case Delete(workload, now) => Deleted(t, workload, now)
  }

  function Final(t: Table, es: seq<Event>): Table {
    if es == [] then t else Next(Final(t, es[..|es| - 1]), es[|es| - 1])
  }

  /** How often the incident turned active over the run. */
  function Activations(t: Table, es: seq<Event>, id: Id): nat {
    if es == [] then 0
    else
      var before := Final(t, es[..|es| - 1]);
      Activations(t, es[..|es| - 1], id)
      + if !Active(before, id) && Active(Next(before, es[|es| - 1]), id) then 1 else 0
  }

  lemma {:induction false} OccurrencesAreActivations(es: seq<Event>, id: Id)
    ensures id in Final(map[], es) <==> Activations(map[], es, id) > 0
    ensures id in Final(map[], es) ==> Final(map[], es)[id].count == Activations(map[], es, id)
  {
    if es != [] {
      OccurrencesAreActivations(es[..|es| - 1], id);
      CountStep(Final(map[], es[..|es| - 1]), es[|es| - 1], id);
    }
  }

  lemma CountStep(t: Table, e: Event, id: Id)
    ensures var u := Next(t, e);
            && (id in t ==> id in u)
            && (id in u ==>
                  var before := if id in t then t[id].count else 0;
                  u[id].count == before + (if !Active(t, id) && Active(u, id) then 1 else 0))
            && (id in u && id !in t ==> Active(u, id))
  {
  }
}
