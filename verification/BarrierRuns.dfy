/**
 Runs of the Controller over a restored farm. Facts and barriers change between what a
 pass reads and what it does; passes over one Host may overlap here, although the Host
 lock keeps their evaluations apart.
 */
module BarrierRuns {
  import opened Common
  import opened Planner
  import opened RestoreBarrier

  datatype Entry =
    | Barred(hosts: set<nat>)               // a restored database was found
    | Conflict(host: nat)                   // a pass marked a conflict
    | Read(pass: nat, host: nat, facts: Facts)
    | Lifted(pass: nat, host: nat)
    | Drafted(pass: nat, host: nat, facts: Facts)
    | Checked(pass: nat, host: nat, facts: Facts)
    | Sent(pass: nat, host: nat)

  /** An evaluation under way, read at position `at` of the log. */
  datatype Evaluation = Evaluation(reading: Reading, at: nat)

  /** An action reserved at position `at`, and where it was last found current. */
  datatype Draft = Draft(host: nat, facts: Facts, at: nat, checked: Option<nat>)

  datatype World = World(t: Table, facts: map<nat, Facts>, evaluations: map<nat, Evaluation>, drafts: map<nat, Draft>,
                         log: seq<Entry>)

  const Start := World(Table(map[], false), map[], map[], map[], [])

  datatype Event =
    | Observe(host: nat, facts: Facts)       // anything about the Host changes
    | Begin(pass: nat, host: nat)            // prepareDispatchLocked reads the facts and the barrier
    | Commit(pass: nat)                      // the evaluation clears the barrier or marks the conflict
    | Check(pass: nat)                       // actionStillCurrent, before the send
    | Send(pass: nat)                        // START or STOP is handed to the transport
    | Boot                                   // the Controller starts again
    | Restore(hosts: set<nat>, backup: nat)  // and finds a restored database

  /** The executions a draft was planned from are still those of a usable observation of the same epoch. */
  predicate StillCurrent(planned: Facts, now: Facts) {
    Observable(now) && now.observed.epoch == planned.observed.epoch
      && now.observed.executions == planned.observed.executions
  }

  function Begun(w: World, pass: nat, host: nat): World
    requires host in w.facts
  {
    var f := w.facts[host];
    if !Observable(f) then w
    else if host !in w.t.barriers then
      w.(drafts := w.drafts[pass := Draft(host, f, |w.log|, None)], log := w.log + [Drafted(pass, host, f)])
    else if !Complete(f) then w
    else
      var b := w.t.barriers[host];
      w.(evaluations := w.evaluations[pass := Evaluation(Reading(host, b.backup, b.revision, f), |w.log|)],
         log := w.log + [Read(pass, host, f)])
  }

  /** What committing `r` leaves in the log. */
  function Traces(t: Table, pass: nat, r: Reading): seq<Entry> {
    if Stale(t, r.host, r.backup, r.revision) then []
    else if Agrees(r.facts) then [Lifted(pass, r.host)]
    else if t.barriers[r.host].conflict then []
    else [Conflict(r.host)]
  }

  function Next(w: World, e: Event): World {
    match e
    case Observe(host, f) => w.(facts := w.facts[host := f])
    case Begin(pass, host) =>
      if pass in w.evaluations || pass in w.drafts || host !in w.facts then w else Begun(w, pass, host)
    case Commit(pass) =>
      if pass !in w.evaluations then w
      else
        var r := w.evaluations[pass].reading;
        w.(t := Committed(w.t, r), evaluations := w.evaluations - {pass}, log := w.log + Traces(w.t, pass, r))
    case Check(pass) =>
      if pass !in w.drafts then w
      else
        var d := w.drafts[pass];
        if d.host in w.t.barriers || d.host !in w.facts || !StillCurrent(d.facts, w.facts[d.host]) then
          w.(drafts := w.drafts - {pass})
        else
          w.(drafts := w.drafts[pass := d.(checked := Some(|w.log|))],
             log := w.log + [Checked(pass, d.host, w.facts[d.host])])
    case Send(pass) =>
      if pass !in w.drafts || w.drafts[pass].checked.None? then w
      else w.(drafts := w.drafts - {pass}, log := w.log + [Sent(pass, w.drafts[pass].host)])
    case Boot => w.(facts := map[], evaluations := map[], drafts := map[])
    case Restore(hosts, backup) =>
      World(Prepared(hosts, backup), map[], map[], map[], w.log + [Barred(hosts)])
  }

  function Final(w: World, es: seq<Event>): World
    decreases |es|
  {
    if es == [] then w else Final(Next(w, es[0]), es[1..])
  }

  // ---- what the log shows ------------------------------------------------------

  /** The last restore before position `n` was the one at `r`, and it barred the Host. */
  predicate Barring(log: seq<Entry>, r: nat, n: nat, host: nat) {
    r < n <= |log| && log[r].Barred? && host in log[r].hosts && NoBar(log, r + 1, n)
  }

  predicate NoBar(log: seq<Entry>, i: nat, n: nat) { forall j :: i <= j < n && j < |log| ==> !log[j].Barred? }

  predicate NoConflict(log: seq<Entry>, i: nat, n: nat, host: nat) {
    forall j :: i <= j < n && j < |log| ==> log[j] != Conflict(host)
  }

  /**
   The barrier lifted at `c` was lifted by an evaluation that had read complete and
   agreeing facts at `a`, with no restore and no conflict of the Host since.
   */
  predicate LiftedBy(log: seq<Entry>, a: nat, c: nat, host: nat) {
    && a < c < |log| && log[c].Lifted? && log[c].host == host
    && log[a].Read? && log[a].host == host && log[a].pass == log[c].pass
    && SeenInFull(log[a].facts) && AsIntended(log[a].facts)
    && NoBar(log, a, c) && NoConflict(log, a, c, host)
  }

  ghost predicate LiftedSince(log: seq<Entry>, r: nat, n: nat, host: nat) {
    exists a: nat, c: nat :: r < a && c < n && LiftedBy(log, a, c, host)
  }

  /** By position `n` the Host is free of the last restore. */
  ghost predicate Freed(log: seq<Entry>, n: nat, host: nat) {
    forall r: nat :: Barring(log, r, n, host) ==> LiftedSince(log, r, n, host)
  }

  /**
   The action sent at `k` was drafted at `p`, when its Host was free of the last
   restore, and found current at `q`, on the executions it was drafted from.
   */
  ghost predicate SentAfter(log: seq<Entry>, p: nat, q: nat, k: nat) {
    && p < q < k < |log| && log[k].Sent?
    && log[p].Drafted? && log[p].pass == log[k].pass && log[p].host == log[k].host
    && log[q].Checked? && log[q].pass == log[k].pass && log[q].host == log[k].host
    && (forall i :: i == p || i == q ==>
          var o := log[i].facts.observed; o.connected && o.ready && o.current)
    && log[q].facts.observed.epoch == log[p].facts.observed.epoch
    && log[q].facts.observed.executions == log[p].facts.observed.executions
    && NoBar(log, p, k) && Freed(log, p, log[k].host)
  }

  // ---- the log only grows ---------------------------------------------------------

  predicate Grows(log: seq<Entry>, more: seq<Entry>) { |log| <= |more| && more[..|log|] == log }

  lemma Kept(log: seq<Entry>, more: seq<Entry>, i: nat)
    requires Grows(log, more) && i < |log|
    ensures more[i] == log[i]
  {
    assert more[..|log|][i] == more[i];
  }

  lemma BarringKept(log: seq<Entry>, more: seq<Entry>, r: nat, n: nat, host: nat)
    requires Grows(log, more) && n <= |log|
    ensures Barring(more, r, n, host) <==> Barring(log, r, n, host)
  {
    forall i: nat | i < |log| ensures more[i] == log[i] { Kept(log, more, i); }
  }

  lemma LiftedKept(log: seq<Entry>, more: seq<Entry>, a: nat, c: nat, host: nat)
    requires Grows(log, more) && LiftedBy(log, a, c, host)
    ensures LiftedBy(more, a, c, host)
  {
    forall i: nat | i < |log| ensures more[i] == log[i] { Kept(log, more, i); }
  }

  lemma FreedKept(log: seq<Entry>, more: seq<Entry>, n: nat, host: nat)
    requires Grows(log, more) && n <= |log| && Freed(log, n, host)
    ensures Freed(more, n, host)
  {
    forall r: nat | Barring(more, r, n, host) ensures LiftedSince(more, r, n, host) {
      BarringKept(log, more, r, n, host);
      var a: nat, c: nat :| r < a && c < n && LiftedBy(log, a, c, host);
      LiftedKept(log, more, a, c, host);
    }
  }

  /** A Host that is free stays so until the next restore. */
  lemma FreedOn(log: seq<Entry>, n: nat, m: nat, host: nat)
    requires n <= m <= |log| && NoBar(log, n, m) && Freed(log, n, host)
    ensures Freed(log, m, host)
  {
    forall r: nat | Barring(log, r, m, host) ensures LiftedSince(log, r, m, host) {
      assert r < n && NoBar(log, r + 1, n);
      assert Barring(log, r, n, host);
      var a: nat, c: nat :| r < a && c < n && LiftedBy(log, a, c, host);
    }
  }

  lemma SentKept(log: seq<Entry>, more: seq<Entry>, p: nat, q: nat, k: nat)
    requires Grows(log, more) && SentAfter(log, p, q, k)
    ensures SentAfter(more, p, q, k)
  {
    forall i: nat | i < |log| ensures more[i] == log[i] { Kept(log, more, i); }
    FreedKept(log, more, p, log[k].host);
  }

  // ---- the invariant --------------------------------------------------------------

  ghost predicate EvaluationFits(t: Table, log: seq<Entry>, pass: nat, v: Evaluation) {
    && v.at < |log| && log[v.at] == Read(pass, v.reading.host, v.reading.facts) && Complete(v.reading.facts)
    && NoBar(log, v.at, |log|)
    && (v.reading.host in t.barriers ==> v.reading.revision <= t.barriers[v.reading.host].revision)
    && (!Stale(t, v.reading.host, v.reading.backup, v.reading.revision) ==>
          NoConflict(log, v.at, |log|, v.reading.host))
  }

  ghost predicate DraftFits(t: Table, log: seq<Entry>, pass: nat, d: Draft) {
    && d.at < |log| && log[d.at] == Drafted(pass, d.host, d.facts) && Observable(d.facts)
    && d.host !in t.barriers && NoBar(log, d.at, |log|) && Freed(log, d.at, d.host)
    && (d.checked.Some? ==>
          && d.at < d.checked.value < |log| && log[d.checked.value].Checked?
          && log[d.checked.value].pass == pass && log[d.checked.value].host == d.host
          && StillCurrent(d.facts, log[d.checked.value].facts))
  }

  ghost predicate SentFits(log: seq<Entry>, k: nat) {
    k < |log| && log[k].Sent? ==> exists p: nat, q: nat :: SentAfter(log, p, q, k)
  }

  ghost predicate LiftFits(log: seq<Entry>, c: nat) {
    c < |log| && log[c].Lifted? ==> exists a: nat :: LiftedBy(log, a, c, log[c].host)
  }

  ghost predicate BarriersFit(t: Table, log: seq<Entry>) {
    && (t.required <==> t.barriers != map[])
    && (forall h: nat :: h in t.barriers || Freed(log, |log|, h))
  }

  ghost predicate PassesFit(w: World) {
    && (forall v :: v in w.evaluations ==> EvaluationFits(w.t, w.log, v, w.evaluations[v]))
    && (forall v :: v in w.drafts ==> DraftFits(w.t, w.log, v, w.drafts[v]))
  }

  ghost predicate LogFits(log: seq<Entry>) { forall k: nat :: SentFits(log, k) && LiftFits(log, k) }

  ghost predicate Inv(w: World) { BarriersFit(w.t, w.log) && PassesFit(w) && LogFits(w.log) }

  lemma LogKept(log: seq<Entry>, e: Entry)
    requires LogFits(log)
    requires e.Sent? ==> SentFits(log + [e], |log|)
    requires e.Lifted? ==> LiftFits(log + [e], |log|)
    ensures LogFits(log + [e])
  {
    var more := log + [e];
    forall k: nat ensures SentFits(more, k) && LiftFits(more, k) {
      if k < |log| {
        assert SentFits(log, k) && LiftFits(log, k);
        if log[k].Sent? {
          var p: nat, q: nat :| SentAfter(log, p, q, k);
          SentKept(log, more, p, q, k);
        }
        if log[k].Lifted? {
          var a: nat :| LiftedBy(log, a, k, log[k].host);
          LiftedKept(log, more, a, k, log[k].host);
        }
      }
    }
  }

  lemma EvaluationKept(t: Table, log: seq<Entry>, e: Entry, pass: nat, v: Evaluation)
    requires EvaluationFits(t, log, pass, v) && !e.Barred? && e != Conflict(v.reading.host)
    ensures EvaluationFits(t, log + [e], pass, v)
  {
  }

  lemma DraftKept(t: Table, log: seq<Entry>, e: Entry, pass: nat, d: Draft)
    requires DraftFits(t, log, pass, d) && !e.Barred?
    ensures DraftFits(t, log + [e], pass, d)
  {
    FreedKept(log, log + [e], d.at, d.host);
  }

  lemma BarriersKept(t: Table, log: seq<Entry>, e: Entry)
    requires BarriersFit(t, log) && !e.Barred?
    ensures BarriersFit(t, log + [e])
  {
    forall h: nat | h !in t.barriers ensures Freed(log + [e], |log| + 1, h) {
      FreedKept(log, log + [e], |log|, h);
      FreedOn(log + [e], |log|, |log| + 1, h);
    }
  }

  /** An entry that is neither a restore nor a conflict leaves what was there in order. */
  lemma Logged(w: World, e: Entry)
    requires BarriersFit(w.t, w.log) && PassesFit(w) && !e.Barred? && !e.Conflict?
    ensures BarriersFit(w.t, w.log + [e]) && PassesFit(w.(log := w.log + [e]))
  {
    BarriersKept(w.t, w.log, e);
    forall v | v in w.evaluations ensures EvaluationFits(w.t, w.log + [e], v, w.evaluations[v]) {
      EvaluationKept(w.t, w.log, e, v, w.evaluations[v]);
    }
    forall v | v in w.drafts ensures DraftFits(w.t, w.log + [e], v, w.drafts[v]) {
      DraftKept(w.t, w.log, e, v, w.drafts[v]);
    }
  }

  lemma BeginKeeps(w: World, pass: nat, host: nat)
    requires Inv(w) && host in w.facts && pass !in w.evaluations && pass !in w.drafts
    ensures Inv(Begun(w, pass, host))
  {
    var f := w.facts[host];
    if Observable(f) {
      if host !in w.t.barriers { DraftKeeps(w, pass, host); } else if Complete(f) { ReadKeeps(w, pass, host); }
    }
  }

  lemma DraftKeeps(w: World, pass: nat, host: nat)
    requires Inv(w) && host in w.facts && pass !in w.evaluations && pass !in w.drafts
    requires Observable(w.facts[host]) && host !in w.t.barriers
    ensures Inv(Begun(w, pass, host))
  {
    var e := Drafted(pass, host, w.facts[host]);
    LogKept(w.log, e);
    Logged(w, e);
    FreedOrBarred(w, host, e);
    assert DraftFits(w.t, w.log + [e], pass, Draft(host, w.facts[host], |w.log|, None));
  }

  lemma ReadKeeps(w: World, pass: nat, host: nat)
    requires Inv(w) && host in w.facts && pass !in w.evaluations && pass !in w.drafts
    requires Complete(w.facts[host]) && host in w.t.barriers
    ensures Inv(Begun(w, pass, host))
  {
    var e, b := Read(pass, host, w.facts[host]), w.t.barriers[host];
    LogKept(w.log, e);
    Logged(w, e);
    assert EvaluationFits(w.t, w.log + [e], pass,
                          Evaluation(Reading(host, b.backup, b.revision, w.facts[host]), |w.log|));
  }

  lemma FreedOrBarred(w: World, host: nat, e: Entry)
    requires BarriersFit(w.t, w.log) && host !in w.t.barriers
    ensures Freed(w.log + [e], |w.log|, host)
  {
    FreedKept(w.log, w.log + [e], |w.log|, host);
  }

  lemma CheckKeeps(w: World, pass: nat)
    requires Inv(w)
    ensures Inv(Next(w, Check(pass)))
  {
    var u := Next(w, Check(pass));
    if u.log != w.log {
      var e := u.log[|w.log|];
      LogKept(w.log, e);
      Logged(w, e);
      assert DraftFits(w.t, u.log, pass, w.drafts[pass]);
    }
  }

  lemma SendKeeps(w: World, pass: nat)
    requires Inv(w)
    ensures Inv(Next(w, Send(pass)))
  {
    var u := Next(w, Send(pass));
    if u.log != w.log {
      var d, e := w.drafts[pass], u.log[|w.log|];
      Logged(w, e);
      assert DraftFits(w.t, u.log, pass, d);
      assert SentAfter(u.log, d.at, d.checked.value, |w.log|);
      LogKept(w.log, e);
    }
  }

  /** After a commit the other evaluations fit: of the same Host they are stale, unless nothing was written. */
  lemma OthersFit(t: Table, log: seq<Entry>, pass: nat, r: Reading, other: nat, v: Evaluation)
    requires EvaluationFits(t, log, other, v) && !Stale(t, r.host, r.backup, r.revision)
    requires Agrees(r.facts) || !t.barriers[r.host].conflict
    ensures EvaluationFits(Committed(t, r), log + Traces(t, pass, r), other, v)
  {
  }

  lemma DraftsFit(t: Table, log: seq<Entry>, pass: nat, r: Reading, other: nat, d: Draft)
    requires DraftFits(t, log, other, d) && !Stale(t, r.host, r.backup, r.revision)
    requires Agrees(r.facts) || !t.barriers[r.host].conflict
    ensures DraftFits(Committed(t, r), log + Traces(t, pass, r), other, d)
  {
    FreedKept(log, log + Traces(t, pass, r), d.at, d.host);
  }

  /** The commit that clears a barrier frees the Host of the restore that set it. */
  lemma LiftFrees(t: Table, log: seq<Entry>, pass: nat, v: Evaluation)
    requires EvaluationFits(t, log, pass, v) && Agrees(v.reading.facts)
    requires !Stale(t, v.reading.host, v.reading.backup, v.reading.revision)
    ensures var more := log + [Lifted(pass, v.reading.host)];
            LiftedBy(more, v.at, |log|, v.reading.host) && Freed(more, |more|, v.reading.host)
  {
    var more, host := log + [Lifted(pass, v.reading.host)], v.reading.host;
    FactsInFull(v.reading.facts);
    assert LiftedBy(more, v.at, |log|, host);
    forall r: nat | Barring(more, r, |more|, host) ensures LiftedSince(more, r, |more|, host) {
      assert r < v.at;
    }
  }

  lemma ClearFits(t: Table, log: seq<Entry>, pass: nat, v: Evaluation)
    requires BarriersFit(t, log) && EvaluationFits(t, log, pass, v) && Agrees(v.reading.facts)
    requires !Stale(t, v.reading.host, v.reading.backup, v.reading.revision)
    ensures BarriersFit(Committed(t, v.reading), log + [Lifted(pass, v.reading.host)])
  {
    LiftFrees(t, log, pass, v);
    BarriersKept(t, log, Lifted(pass, v.reading.host));
  }

  lemma MarkFits(t: Table, log: seq<Entry>, r: Reading)
    requires BarriersFit(t, log) && !Agrees(r.facts) && !Stale(t, r.host, r.backup, r.revision)
    ensures BarriersFit(Committed(t, r), log + [Conflict(r.host)])
  {
    BarriersKept(t, log, Conflict(r.host));
    assert r.host in Committed(t, r).barriers;
  }

  lemma CommitFits(w: World, pass: nat)
    requires Inv(w) && pass in w.evaluations
    requires var r := w.evaluations[pass].reading;
             !Stale(w.t, r.host, r.backup, r.revision) && (Agrees(r.facts) || !w.t.barriers[r.host].conflict)
    ensures Inv(Next(w, Commit(pass)))
  {
    var u, v := Next(w, Commit(pass)), w.evaluations[pass];
    var e := u.log[|w.log|];
    if Agrees(v.reading.facts) {
      LiftFrees(w.t, w.log, pass, v);
      ClearFits(w.t, w.log, pass, v);
    } else {
      MarkFits(w.t, w.log, v.reading);
    }
    LogKept(w.log, e);
    forall o | o in u.evaluations ensures EvaluationFits(u.t, u.log, o, u.evaluations[o]) {
      OthersFit(w.t, w.log, pass, v.reading, o, w.evaluations[o]);
    }
    forall o | o in u.drafts ensures DraftFits(u.t, u.log, o, u.drafts[o]) {
      DraftsFit(w.t, w.log, pass, v.reading, o, w.drafts[o]);
    }
  }

  lemma CommitKeeps(w: World, pass: nat)
    requires Inv(w) && pass in w.evaluations
    ensures Inv(Next(w, Commit(pass)))
  {
    var r := w.evaluations[pass].reading;
    if Traces(w.t, pass, r) != [] {
      CommitFits(w, pass);
    } else {
      assert w.log + [] == w.log;
      assert Next(w, Commit(pass)) == w.(evaluations := w.evaluations - {pass});
    }
  }

  lemma RestoreKeeps(w: World, hosts: set<nat>, backup: nat)
    requires Inv(w)
    ensures Inv(Next(w, Restore(hosts, backup)))
  {
    var t, more := Prepared(hosts, backup), w.log + [Barred(hosts)];
    LogKept(w.log, Barred(hosts));
    if h :| h in hosts { assert h in t.barriers; }
    assert more[|w.log|] == Barred(hosts);
    forall h: nat | h !in t.barriers ensures Freed(more, |more|, h) {
      assert h !in hosts;
      assert forall r: nat :: !Barring(more, r, |more|, h);
    }
  }

  lemma StepKeeps(w: World, e: Event)
    requires Inv(w)
    ensures Inv(Next(w, e)) && Grows(w.log, Next(w, e).log)
  {
    match e
    case Begin(pass, host) =>
      if pass !in w.evaluations && pass !in w.drafts && host in w.facts { BeginKeeps(w, pass, host); }
    case Commit(pass) =>
      if pass in w.evaluations { CommitKeeps(w, pass); }
    case Check(pass) => CheckKeeps(w, pass);
    case Send(pass) => SendKeeps(w, pass);
    case Restore(hosts, backup) => RestoreKeeps(w, hosts, backup);
    case _ =>
  }

  lemma {:induction false} RunKeeps(w: World, es: seq<Event>)
    requires Inv(w)
    ensures Inv(Final(w, es))
    decreases |es|
  {
    if es != [] {
      StepKeeps(w, es[0]);
      RunKeeps(Next(w, es[0]), es[1..]);
    }
  }

  /**
   In every run, whatever changes between the steps of a pass: an action is sent only
   after it was found current on the executions it was drafted from, and drafted only
   once the Host was free of the last restore; a barrier is lifted only by an
   evaluation that read complete and agreeing facts after the last restore and the
   last conflict; and the farm requires reconciliation just as long as a barrier remains.
   */
  lemma BarriersHold(es: seq<Event>)
    ensures var u := Final(Start, es);
            && (forall k: nat :: k < |u.log| && u.log[k].Sent? ==> exists p: nat, q: nat :: SentAfter(u.log, p, q, k))
            && (forall c: nat :: c < |u.log| && u.log[c].Lifted? ==>
                  exists a: nat :: LiftedBy(u.log, a, c, u.log[c].host))
            && (u.t.required <==> u.t.barriers != map[])
  {
    RunKeeps(Start, es);
    var u := Final(Start, es);
    forall k: nat | k < |u.log| && u.log[k].Sent? ensures exists p: nat, q: nat :: SentAfter(u.log, p, q, k) {
      assert SentFits(u.log, k);
    }
    forall c: nat | c < |u.log| && u.log[c].Lifted? ensures exists a: nat :: LiftedBy(u.log, a, c, u.log[c].host) {
      assert LiftFits(u.log, c);
    }
  }

  /** Nothing known of the Host agrees with the restored intent. */
  predicate Disagreed(w: World, host: nat) {
    && (host in w.facts ==> !(SeenInFull(w.facts[host]) && AsIntended(w.facts[host])))
    && (forall v :: v in w.evaluations && w.evaluations[v].reading.host == host ==>
          !AsIntended(w.evaluations[v].reading.facts))
  }

  lemma StepStays(w: World, e: Event, host: nat)
    requires host in w.t.barriers && Disagreed(w, host) && !e.Restore?
    requires e.Observe? && e.host == host ==> !(SeenInFull(e.facts) && AsIntended(e.facts))
    ensures host in Next(w, e).t.barriers && Disagreed(Next(w, e), host)
  {
    if host in w.facts { FactsInFull(w.facts[host]); }
    if e.Commit? && e.pass in w.evaluations { FactsInFull(w.evaluations[e.pass].reading.facts); }
  }

  /** A barred Host stays barred through a run in which it is never complete and agreeing. */
  lemma {:induction false} BarrierStays(w: World, es: seq<Event>, host: nat)
    requires host in w.t.barriers && Disagreed(w, host)
    requires forall e :: e in es ==>
               !e.Restore? && (e.Observe? && e.host == host ==> !(SeenInFull(e.facts) && AsIntended(e.facts)))
    ensures host in Final(w, es).t.barriers
    decreases |es|
  {
    if es != [] {
      assert es[0] in es;
      var u := Next(w, es[0]);
      StepStays(w, es[0], host);
      BarrierStays(u, es[1..], host);
    }
  }

  /**
   A draft whose Host is barred, gone or shows anything else by now is dropped, and one
   that is sent is sent once.
   */
  lemma DraftsEnd(w: World, pass: nat)
    requires pass in w.drafts
    ensures var d, u := w.drafts[pass], Next(w, Check(pass));
            var same := d.host !in w.t.barriers && d.host in w.facts
                        && var o, p := w.facts[d.host].observed, d.facts.observed;
                           o.connected && o.ready && o.current && o.epoch == p.epoch && o.executions == p.executions;
            && (!same ==> u == w.(drafts := w.drafts - {pass}))
            && (same ==>
                  && pass in u.drafts && u.drafts[pass].checked.Some?
                  && u.log == w.log + [Checked(pass, d.host, w.facts[d.host])])
    ensures var u := Next(w, Send(pass));
            if w.drafts[pass].checked.Some? then
              pass !in u.drafts && u.log == w.log + [Sent(pass, w.drafts[pass].host)]
            else u == w
  {
  }

  lemma FinalOn(w: World, e: Event, es: seq<Event>)
    ensures Final(w, [e] + es) == Final(Next(w, e), es)
  {
    assert ([e] + es)[1..] == es;
  }

  function Freeing(host: nat): seq<Event> { [Begin(0, host)] + ([Commit(0)] + []) }

  function Sending(host: nat): seq<Event> { [Begin(1, host)] + ([Check(1)] + ([Send(1)] + [])) }

  lemma PassFrees(w: World, host: nat, f: Facts)
    requires w.facts == map[host := f] && host in w.t.barriers && Complete(f) && Agrees(f)
    requires w.evaluations == map[] && w.drafts == map[]
    ensures var u := Final(w, Freeing(host));
            && u == World(u.t, w.facts, map[], map[], w.log + [Read(0, host, f), Lifted(0, host)])
            && host !in u.t.barriers
  {
    FinalOn(w, Begin(0, host), [Commit(0)] + []);
    FinalOn(Next(w, Begin(0, host)), Commit(0), []);
  }

  lemma PassSends(w: World, host: nat, f: Facts)
    requires w.facts == map[host := f] && host !in w.t.barriers && Observable(f)
    requires w.evaluations == map[] && w.drafts == map[]
    ensures Final(w, Sending(host)) ==
            w.(log := w.log + [Drafted(1, host, f), Checked(1, host, f), Sent(1, host)])
  {
    var d := Next(w, Begin(1, host));
    FinalOn(w, Begin(1, host), [Check(1)] + ([Send(1)] + []));
    FinalOn(d, Check(1), [Send(1)] + []);
    FinalOn(Next(d, Check(1)), Send(1), []);
  }

  /** And a restored Host is not barred for good: once it is complete and agreeing, two passes lead to a send. */
  lemma AgreementLeadsToSend(w: World, hosts: set<nat>, backup: nat, host: nat, f: Facts)
    requires host in hosts && SeenInFull(f) && AsIntended(f)
    ensures var n := Next(Next(w, Restore(hosts, backup)), Observe(host, f));
            var u := Final(Final(n, Freeing(host)), Sending(host));
            && host in n.t.barriers && host !in u.t.barriers
            && u.log == w.log + [Barred(hosts), Read(0, host, f), Lifted(0, host),
                                 Drafted(1, host, f), Checked(1, host, f), Sent(1, host)]
  {
    var n := Next(Next(w, Restore(hosts, backup)), Observe(host, f));
    FactsInFull(f);
    PassFrees(n, host, f);
    PassSends(Final(n, Freeing(host)), host, f);
  }
}
