/**
 One execution under the Agent's Supervisor, as the sections its mutex makes atomic:
 starts, waits, backoff timers and stops of the same execution interleave freely
 between them. Generations tell a late one apart.
 */
module Supervisor {
  import opened Common
  import opened Watchdog

  /** `proc` is the process last created and `live` whether its PID is still on record. */
  datatype Exec = Exec(watched: bool, status: Status, desired: bool, generation: nat, proc: Option<nat>, live: bool,
                       crashes: seq<int>, restarts: nat, backoff: Option<nat>)

  datatype Gate = Gate(held: bool, revision: nat, closed: bool)

  // ---- locked sections ---------------------------------------------------------

  predicate AlreadyRunning(e: Exec) { e.desired && e.status in {Running, Starting, Backoff} }

  /** Start: a new generation is to be launched, unless refused or already running. */
  function StartRequested(e: Exec, g: Gate): Exec {
    if g.closed || g.held || AlreadyRunning(e) then e
    else
      e.(desired := true, backoff := None, crashes := [], generation := e.generation + 1,
         status := if e.generation == 0 then Starting else e.status)
  }

  /** startExisting after a refused validation. */
  function Refused(e: Exec, g: Gate, generation: nat): Exec {
    if e.desired && e.generation == generation && !g.closed then e.(desired := false, status := Failed) else e
  }

  predicate MayCreate(e: Exec, g: Gate, generation: nat) {
    !g.held && e.desired && e.generation == generation && !g.closed
  }

  /** startExisting's second section; `p` is the process cmd.Start creates unless it fails. */
  function Launched(e: Exec, g: Gate, generation: nat, p: nat, created: bool): Exec {
    if g.held then e.(desired := false, status := Stopped, generation := e.generation + 1)
    else if !MayCreate(e, g, generation) then e
    else if created then e.(proc := Some(p), live := true, status := Running)
    else e.(proc := Some(p), status := Failed, desired := false)
  }

  /** wait, for process `p` of `generation`, at time `now`. */
  function Exited(e: Exec, c: Config, p: nat, generation: nat, now: int): Exec {
    if e.proc != Some(p) || e.generation != generation then e
    else if !e.desired then e.(live := false, status := Stopped)
    else
      var crashes := WithCrash(e.crashes, now, c);
      var x := e.(live := false, crashes := crashes);
      if !e.watched then x.(desired := false, status := Crashed)
      else if |crashes| >= c.limit then x.(desired := false, status := Failed)
      else x.(status := Backoff, restarts := e.restarts + 1, generation := e.generation + 1,
              backoff := Some(e.generation + 1))
  }

  predicate MayRestart(e: Exec, g: Gate, generation: nat) { e.desired && e.generation == generation && !g.closed }

  function Elapsed(e: Exec, generation: nat): Exec { if e.backoff == Some(generation) then e.(backoff := None) else e }

  predicate NothingToStop(e: Exec) { e.status == Stopped || !e.live }

  /** Stop up to the signal. */
  function StopRequested(e: Exec): Exec {
    var x := e.(desired := false, backoff := None);
    if NothingToStop(e) then x.(generation := e.generation + 1, status := Stopped) else x.(status := Stopping)
  }

  /** Stop after the process is done. */
  function StopFinished(e: Exec): Exec { e.(status := Stopped, live := false) }

  /** ApplyMaintenanceHold's decision. */
  function HoldApplied(g: Gate, active: bool, revision: nat): Gate {
    if revision > g.revision then g.(held := active, revision := revision) else g
  }

  predicate HoldRefused(g: Gate, active: bool, revision: nat) {
    revision < g.revision || (revision == g.revision && active != g.held)
  }

  /** Executions that an active hold stops. */
  predicate MustStop(e: Exec) { e.desired || e.status != Stopped }

  // ---- interleavings --------------------------------------------------------------

  /**
   `starts`, `timers`, `waits` and `stops` are the calls under way: generations to be
   launched or to leave backoff, processes waited for with their generation, and
   stops with the process they wait for; `alive` are the real processes and `ended`
   those whose end was announced.
   */
  datatype World = World(e: Exec, g: Gate, starts: set<nat>, timers: set<nat>, waits: map<nat, nat>,
                         stops: map<nat, nat>,
                         alive: set<nat>, ended: set<nat>, next: nat)

  datatype Event =
    | Start
    | Refuse(generation: nat)
    | Launch(generation: nat, created: bool)
    | Die(p: nat)
    | Wait(p: nat, now: int)
    | Elapse(generation: nat)
    | Stop(k: nat)
    | Finish(k: nat)
    | Hold(active: bool, revision: nat)
    | Close

  const NewExec := Exec(true, Stopped, false, 0, None, false, [], 0, None)
  const Initial := World(NewExec, Gate(false, 0, false), {}, {}, map[], map[], {}, {}, 0)

  function Next(w: World, c: Config, v: Event): World {
    match v
    case Start =>
      var e := StartRequested(w.e, w.g);
      w.(e := e, starts := if e.generation != w.e.generation then w.starts + {e.generation} else w.starts)
    case Refuse(n) => if n in w.starts then w.(e := Refused(w.e, w.g, n), starts := w.starts - {n}) else w
    case Launch(n, created) =>
      if n !in w.starts then w
      else
        var u := w.(e := Launched(w.e, w.g, n, w.next, created), starts := w.starts - {n});
        if !MayCreate(w.e, w.g, n) then u
        else if created then u.(waits := w.waits[w.next := n], alive := w.alive + {w.next}, next := w.next + 1)
        else u.(ended := w.ended + {w.next}, next := w.next + 1)
    case Die(p) => w.(alive := w.alive - {p})
    case Wait(p, now) =>
      if p !in w.waits || p in w.alive then w
      else
        var e := Exited(w.e, c, p, w.waits[p], now);
        w.(e := e, waits := w.waits - {p},
           ended := if w.e.proc == Some(p) && w.e.generation == w.waits[p] then w.ended + {p} else w.ended,
           timers := if e.generation != w.e.generation then w.timers + {e.generation} else w.timers)
    case Elapse(n) =>
      if n !in w.timers then w
      else w.(e := Elapsed(w.e, n), timers := w.timers - {n}, starts := if MayRestart(w.e, w.g, n) then w.starts + {n}
              else w.starts)
    case Stop(k) =>
      w.(e := StopRequested(w.e), stops := if NothingToStop(w.e) || w.e.proc.None? then w.stops
         else w.stops[k := w.e.proc.value])
    case Finish(k) =>
      if k in w.stops && w.stops[k] in w.ended then w.(e := StopFinished(w.e), stops := w.stops - {k}) else w
    case Hold(active, revision) => w.(g := HoldApplied(w.g, active, revision))
    case Close => w.(g := w.g.(closed := true))
  }

  function Final(w: World, c: Config, vs: seq<Event>): World
    decreases |vs|
  {
    if vs == [] then w else Final(Next(w, c, vs[0]), c, vs[1..])
  }

  // ---- what holds --------------------------------------------------------------------

  /** No Start while a Stop of the execution waits. */
  predicate Separate(w: World, v: Event) { v.Start? ==> w.stops == map[] }

  /** A launch that meets the hold finds no process on record, or a dead one in a Supervisor that is closed. */
  predicate Clean(w: World, v: Event) {
    v.Launch? && v.generation in w.starts && w.g.held ==> !w.e.live || (w.alive == {} && w.stops == map[] && w.g.closed)
  }

  predicate Lawful(w: World, v: Event) { Separate(w, v) && Clean(w, v) }

  predicate Along(P: (World, Event) -> bool, w: World, c: Config, vs: seq<Event>)
    decreases |vs|
  {
    vs == [] || (P(w, vs[0]) && Along(P, Next(w, c, vs[0]), c, vs[1..]))
  }

  /** A process on record is the one waited for, under the current generation. */
  predicate Inv(w: World) {
    && (w.e.live <==> w.e.status in {Running, Stopping})
    && (w.e.status == Running ==> w.e.desired) && (w.e.status == Stopping ==> !w.e.desired)
    && (if w.e.live then w.e.proc.Some? && w.waits == map[w.e.proc.value := w.e.generation] else w.waits == map[])
    && w.alive <= w.waits.Keys
    && (forall n :: n in w.starts ==> n <= w.e.generation && (n == w.e.generation ==> !w.e.live))
    && (forall n :: n in w.timers ==> n <= w.e.generation && (n == w.e.generation ==> !w.e.live) && n !in w.starts)
    && (forall k :: k in w.stops ==> if w.e.live then w.e.proc == Some(w.stops[k]) else w.stops[k] in w.ended)
    && (w.stops != map[] ==> !w.e.desired) && (w.e.status == Stopping ==> w.stops != map[])
    && (forall p :: p in w.waits ==> p < w.next && p !in w.ended) && (forall p :: p in w.ended ==> p < w.next)
  }

  /** Nothing is alive, nothing waits, and nothing will be launched. */
  predicate Shut(w: World) {
    && w.g.closed && w.alive == {} && w.stops == map[] && w.e.status == Stopped && !w.e.desired
    && forall p :: p in w.waits ==> w.waits[p] < w.e.generation
  }

  predicate Sound(w: World) { Inv(w) || Shut(w) }

  lemma LaunchKeeps(w: World, c: Config, n: nat, created: bool)
    requires Inv(w) && Clean(w, Launch(n, created))
    ensures Sound(Next(w, c, Launch(n, created)))
  {
    if n in w.starts && w.g.held && w.e.live {
      assert Shut(Next(w, c, Launch(n, created)));
    } else {
      assert Inv(Next(w, c, Launch(n, created)));
    }
  }

  lemma ShutKeeps(w: World, c: Config, v: Event)
    requires Shut(w)
    ensures Shut(Next(w, c, v))
  {
  }

  lemma WaitKeeps(w: World, c: Config, p: nat, now: int)
    requires Inv(w)
    ensures Inv(Next(w, c, Wait(p, now)))
  {
    if p in w.waits { assert w.e.proc == Some(p) && w.waits - {p} == map[]; }
  }

  lemma StopKeeps(w: World, c: Config, k: nat)
    requires Inv(w)
    ensures Inv(Next(w, c, Event.Stop(k))) && Inv(Next(w, c, Finish(k)))
  {
    var n := Next(w, c, Event.Stop(k));
    assert n.e.status == Stopping ==> k in n.stops;
  }

  lemma StartKeeps(w: World, c: Config)
    requires Inv(w) && w.stops == map[]
    ensures Inv(Next(w, c, Start))
  {
  }

  lemma StepKeeps(w: World, c: Config, v: Event)
    requires Sound(w) && Lawful(w, v)
    ensures Sound(Next(w, c, v))
  {
    if Shut(w) {
      ShutKeeps(w, c, v);
    } else {
      match v
      case Start => StartKeeps(w, c);
      case Launch(n, created) => LaunchKeeps(w, c, n, created);
      case Wait(p, now) => WaitKeeps(w, c, p, now);
      case Stop(k) => StopKeeps(w, c, k);
      case Finish(k) => StopKeeps(w, c, k);
      case _ => assert Inv(Next(w, c, v));
    }
  }

  lemma {:induction false} RunKeeps(w: World, c: Config, vs: seq<Event>)
    requires Sound(w) && Along(Lawful, w, c, vs)
    ensures Sound(Final(w, c, vs))
    decreases |vs|
  {
    if vs != [] {
      StepKeeps(w, c, vs[0]);
      RunKeeps(Next(w, c, vs[0]), c, vs[1..]);
    }
  }

  /**
   A process that is alive is the one on record, which an active hold and Stop both
   find; a stop that waits will be answered: its process has ended, or is the one on
   record and waited for.
   */
  predicate OnRecord(w: World) {
    && (forall p :: p in w.alive ==> w.e.live && w.e.proc == Some(p) && w.e.status in {Running, Stopping})
    && (forall k :: k in w.stops ==>
          w.stops[k] in w.ended || (w.e.proc == Some(w.stops[k]) && w.waits == map[w.stops[k] := w.e.generation]))
  }

  lemma SoundIsOnRecord(w: World)
    requires Sound(w)
    ensures OnRecord(w)
  {
  }

  /**
   In every run at most one process of the execution is alive; an active hold finds
   it, for it is never recorded as STOPPED; and every stop that waits will be answered.
   */
  lemma ProcessIsOnRecord(c: Config, vs: seq<Event>)
    requires Along(Lawful, Initial, c, vs)
    ensures OnRecord(Final(Initial, c, vs))
  {
    RunKeeps(Initial, c, vs);
    SoundIsOnRecord(Final(Initial, c, vs));
  }

  /** When a Stop returns, by its own finding or after the wait, nothing of the execution is alive. */
  lemma StopKills(c: Config, vs: seq<Event>, k: nat)
    requires Along(Lawful, Initial, c, vs)
    ensures var w := Final(Initial, c, vs);
            && (w.e.status == Stopped || !w.e.live ==> w.alive == {})
            && (k in w.stops && w.stops[k] in w.ended ==> w.alive == {})
  {
    RunKeeps(Initial, c, vs);
    var w := Final(Initial, c, vs);
    if NothingToStop(w.e) || (k in w.stops && w.stops[k] in w.ended) {
      assert w.alive == {};
    }
  }

  predicate StaysHeld(w: World, v: Event) { v.Hold? ==> HoldApplied(w.g, v.active, v.revision).held }

  /**
   Under an active hold no process is created, whatever happens, until a later revision
   releases it: once all is stopped, all stays stopped.
   */
  lemma {:induction false} QuietUnderHold(w: World, c: Config, vs: seq<Event>)
    requires w.g.held && Along(StaysHeld, w, c, vs)
    ensures Final(w, c, vs).alive <= w.alive && Final(w, c, vs).g.held
    decreases |vs|
  {
    if vs != [] { QuietUnderHold(Next(w, c, vs[0]), c, vs[1..]); }
  }

  // ---- what the calls bring about -----------------------------------------------------

  /** A Start that finds no hold and nothing running leads to a running process, with a clean crash list. */
  lemma StartRuns(w: World, c: Config)
    requires !w.g.held && !w.g.closed && !(w.e.desired && w.e.status in {Running, Starting, Backoff})
    ensures var u := Next(Next(w, c, Start), c, Launch(w.e.generation + 1, true));
            && u.e.status == Running && u.e.desired && u.e.live && u.e.proc == Some(w.next) && u.e.crashes == []
            && u.e.generation == w.e.generation + 1 && u.e.backoff == None && u.e.restarts == w.e.restarts
            && u.alive == w.alive + {w.next} && u.waits == w.waits[w.next := u.e.generation] && u.next == w.next + 1
            && w.e.generation + 1 !in u.starts
  {
  }

  /** Otherwise it does nothing, and a launch that fails or is refused ends what was asked for. */
  lemma StartFails(w: World, c: Config)
    ensures w.g.held || w.g.closed || (w.e.desired && w.e.status in {Running, Starting, Backoff}) ==>
              Next(w, c, Start) == w
    ensures forall n :: n in w.starts && n == w.e.generation && w.e.desired && !w.g.closed ==>
              var u := Next(w, c, Refuse(n)); !u.e.desired && u.e.status == Failed && u.alive == w.alive
    ensures forall n :: n in w.starts && n == w.e.generation && w.e.desired && !w.g.held && !w.g.closed ==>
              var u := Next(w, c, Launch(n, false)); !u.e.desired && u.e.status == Failed && u.alive == w.alive
  {
  }

  /** A launch that is out of date or meets a closed Supervisor changes nothing but that it is over. */
  lemma LateLaunchIsNothing(w: World, c: Config, n: nat, created: bool)
    requires !w.g.held && n in w.starts && (n != w.e.generation || !w.e.desired || w.g.closed)
    ensures Next(w, c, Launch(n, created)) == w.(starts := w.starts - {n})
    ensures Next(w, c, Refuse(n)) == w.(starts := w.starts - {n})
  {
  }

  /** The process on record has died, of an execution that is to run and is watched. */
  predicate HasCrashed(w: World, p: nat) {
    && p in w.waits && p !in w.alive && w.e.proc == Some(p) && w.e.generation == w.waits[p]
    && w.e.desired && w.e.watched
  }

  /** The crashes still in the window at `now`, the one at `now` included. */
  function CrashesAt(e: Exec, c: Config, now: int): nat { 1 + |After(e.crashes, now - c.window)| }

  /** Below the limit the crash is followed by a new process, once its timer has run out. */
  lemma CrashRestarts(w: World, c: Config, p: nat, now: int)
    requires HasCrashed(w, p) && CrashesAt(w.e, c, now) < c.limit && !w.g.held && !w.g.closed
    ensures var b := Next(w, c, Wait(p, now));
            && b.e.status == Backoff && b.e.desired && !b.e.live && b.e.generation == w.e.generation + 1
            && b.timers == w.timers + {b.e.generation} && b.e.backoff == Some(b.e.generation) && p in b.ended
            && |b.e.crashes| == CrashesAt(w.e, c, now) && b.e.restarts == w.e.restarts + 1
    ensures var b := Next(w, c, Wait(p, now));
            var u := Next(Next(b, c, Elapse(b.e.generation)), c, Launch(b.e.generation, true));
            && u.e.status == Running && u.e.desired && u.e.live && u.e.proc == Some(w.next) && u.e.backoff == None
            && u.alive == w.alive + {w.next} && u.e.generation == b.e.generation && u.e.crashes == b.e.crashes
            && u.waits == (w.waits - {p})[w.next := u.e.generation] && u.timers == b.timers - {b.e.generation}
  {
    RecentCounts(w.e.crashes, now - c.window);
    var b := Next(w, c, Wait(p, now));
    assert b.e.status == Backoff;
    var t := Next(b, c, Elapse(b.e.generation));
    assert b.e.generation in t.starts && MayCreate(t.e, t.g, b.e.generation);
  }

  /** At the limit, or unwatched, the execution is over. */
  lemma CrashEnds(w: World, c: Config, p: nat, now: int)
    requires HasCrashed(w.(e := w.e.(watched := true)), p)
    requires !w.e.watched || CrashesAt(w.e, c, now) >= c.limit
    ensures var u := Next(w, c, Wait(p, now));
            && u.e.status == (if w.e.watched then Failed else Crashed) && !u.e.desired && !u.e.live
            && u.e.generation == w.e.generation && u.timers == w.timers && p in u.ended
  {
    RecentCounts(w.e.crashes, now - c.window);
  }

  /** Stop ends the process on record, and with it the execution. */
  lemma StopEnds(w: World, c: Config, k: nat, p: nat, now: int)
    requires w.e.live && w.e.status != Stopped && w.e.proc == Some(p)
    requires p in w.waits && w.waits[p] == w.e.generation && k !in w.stops
    ensures var s := Next(w, c, Event.Stop(k));
            && s.e.status == Stopping && !s.e.desired && s.stops == w.stops[k := p] && s.e.backoff == None
    ensures var u := Next(Next(Next(Next(w, c, Event.Stop(k)), c, Die(p)), c, Wait(p, now)), c, Finish(k));
            && u.e.status == Stopped && !u.e.desired && !u.e.live && u.stops == w.stops
            && u.alive == w.alive - {p} && u.e.generation == w.e.generation && u.timers == w.timers
  {
    var s := Next(w, c, Event.Stop(k));
    assert s.stops == w.stops[k := p];
    assert (w.stops[k := p]) - {k} == w.stops;
  }

  /** With nothing to stop it outdates every launch and timer under way. */
  lemma StopOutdates(w: World, c: Config, k: nat)
    requires w.e.status == Stopped || !w.e.live
    ensures var u := Next(w, c, Event.Stop(k));
            && u == w.(e := u.e) && u.e.status == Stopped && !u.e.desired && u.e.backoff == None
            && u.e.generation == w.e.generation + 1
  {
  }

  /** A hold is taken up under a later revision alone. */
  lemma LaterHoldCounts(w: World, c: Config, active: bool, revision: nat)
    ensures var u := Next(w, c, Hold(active, revision));
            && u == w.(g := u.g) && u.g.closed == w.g.closed
            && (revision > w.g.revision ==> u.g.held == active && u.g.revision == revision)
            && (revision <= w.g.revision ==> u == w)
  {
  }

  // ---- a launch that meets the hold ------------------------------------------------

  /** The record is true now exactly when no process is on it, or a dead one that no stop waits for. */
  lemma HeldLaunchIsOnRecordExactlyWhen(w: World, c: Config, n: nat, created: bool)
    requires Inv(w) && n in w.starts && w.g.held
    ensures OnRecord(Next(w, c, Launch(n, created))) <==> !w.e.live || (w.alive == {} && w.stops == map[])
  {
    var u := Next(w, c, Launch(n, created));
    if w.e.live && w.stops != map[] {
      var k :| k in w.stops;
      assert k in u.stops && u.waits[u.stops[k]] != u.e.generation;
    }
  }

  ghost predicate StaysOnRecord(w: World, c: Config) {
    forall vs :: Along(Lawful, w, c, vs) ==> OnRecord(Final(w, c, vs))
  }

  lemma SoundStaysOnRecord(w: World, c: Config)
    requires Sound(w)
    ensures StaysOnRecord(w, c)
  {
    forall vs | Along(Lawful, w, c, vs) ensures OnRecord(Final(w, c, vs)) {
      RunKeeps(w, c, vs);
      SoundIsOnRecord(Final(w, c, vs));
    }
  }

  /**
   And it stays true in every lawful run exactly when, beyond that, a dead process is
   on record only in a Supervisor that is closed. The hold is checked before the
   generation, so a superseded launch marks a running execution STOPPED.
   */
  lemma HeldLaunchIsSafeExactlyWhen(w: World, c: Config, n: nat, created: bool)
    requires Inv(w) && n in w.starts && w.g.held
    ensures StaysOnRecord(Next(w, c, Launch(n, created)), c) <==> Clean(w, Launch(n, created))
  {
    var u := Next(w, c, Launch(n, created));
    HeldLaunchIsOnRecordExactlyWhen(w, c, n, created);
    if Clean(w, Launch(n, created)) {
      LaunchKeeps(w, c, n, created);
      SoundStaysOnRecord(u, c);
    } else if w.alive == {} && w.stops == map[] {
      DeadRecordMisleads(u, c);
    } else {
      assert Along(Lawful, u, c, []) && Final(u, c, []) == u;
    }
  }

  /** A dead process left on record makes a later Stop wait for an end that was never announced. */
  lemma DeadRecordMisleads(w: World, c: Config)
    requires w.g.held && !w.g.closed && w.alive == {} && w.stops == map[] && w.e.live && w.e.status == Stopped
             && !w.e.desired
    requires w.e.generation > 0
    requires w.e.proc.Some? && w.waits.Keys == {w.e.proc.value} && w.waits[w.e.proc.value] < w.e.generation
    requires w.e.proc.value !in w.ended
    ensures !StaysOnRecord(w, c)
  {
    var p, g := w.e.proc.value, w.e.generation + 1;
    var vs, u := Then(Lawful, w, c, [], w, Wait(p, 0));
    vs, u := Then(Lawful, w, c, vs, u, Hold(false, w.g.revision + 1));
    assert u.e == w.e && u.waits == map[] && !u.g.held && !u.g.closed;
    vs, u := Then(Lawful, w, c, vs, u, Event.Start);
    assert u.e.generation == g && u.e.desired && u.e.live && g in u.starts;
    vs, u := Then(Lawful, w, c, vs, u, Refuse(g));
    assert u.e.status == Failed && u.e.live;
    vs, u := Then(Lawful, w, c, vs, u, Event.Stop(0));
    assert 0 in u.stops && u.stops[0] == p && p !in u.ended && u.waits == map[];
  }

  /** Then the hold's own Stop finds nothing to stop, and the process outlives it. */
  lemma SupersededLaunchEscapesHold(c: Config)
    requires Normal(c) && c.limit > 1
    ensures exists vs :: Along(Separate, Initial, c, vs)
              && var w := Final(Initial, c, vs); w.g.held && w.alive != {} && w.stops == map[] && !MustStop(w.e)
  {
    var vs, w := Superseded(c);
    vs, w := Then(Separate, Initial, c, vs, w, Hold(true, 1));
    vs, w := Then(Separate, Initial, c, vs, w, Launch(2, true));
    assert 1 in w.alive;
    vs, w := Then(Separate, Initial, c, vs, w, Event.Stop(1));
    assert 1 in w.alive;
  }

  /** A Stop whose process will never be announced as ended, whatever happens. */
  ghost predicate WaitsForever(w: World, c: Config, k: nat) {
    k in w.stops && forall us :: w.stops[k] !in Final(w, c, us).ended
  }

  lemma {:induction false} NeverEnds(w: World, c: Config, us: seq<Event>, p: nat)
    requires p < w.next && p !in w.waits && p !in w.ended
    ensures p !in Final(w, c, us).ended
    decreases |us|
  {
    if us != [] { NeverEnds(Next(w, c, us[0]), c, us[1..], p); }
  }

  /** Or a Stop that waits at the moment of the launch loses the signal it waits for. */
  lemma SupersededLaunchLosesStop(c: Config)
    requires Normal(c) && c.limit > 1
    ensures exists vs :: Along(Separate, Initial, c, vs) && WaitsForever(Final(Initial, c, vs), c, 0)
  {
    var vs, w := Superseded(c);
    vs, w := Then(Separate, Initial, c, vs, w, Event.Stop(0));
    assert w.stops == map[0 := 1] && w.starts == {2};
    vs, w := Then(Separate, Initial, c, vs, w, Hold(true, 1));
    vs, w := Then(Separate, Initial, c, vs, w, Launch(2, true));
    assert w.e.generation == 5;
    vs, w := Then(Separate, Initial, c, vs, w, Die(1));
    vs, w := Then(Separate, Initial, c, vs, w, Wait(1, 0));
    assert w.stops == map[0 := 1] && 1 !in w.waits && 1 !in w.ended;
    forall us ensures 1 !in Final(w, c, us).ended { NeverEnds(w, c, us, 1); }
  }

  lemma Then(P: (World, Event) -> bool, from: World, c: Config, vs: seq<Event>, w: World, v: Event)
    returns (us: seq<Event>, n: World)
    requires w == Final(from, c, vs) && Along(P, from, c, vs) && P(w, v)
    ensures n == Final(from, c, us) && Along(P, from, c, us) && n == Next(w, c, v)
  {
    OneMore(P, from, c, vs, v);
    us, n := vs + [v], Next(w, c, v);
  }

  lemma {:induction false} OneMore(P: (World, Event) -> bool, w: World, c: Config, vs: seq<Event>, v: Event)
    ensures Final(w, c, vs + [v]) == Next(Final(w, c, vs), c, v)
    ensures Along(P, w, c, vs + [v]) <==> Along(P, w, c, vs) && P(Final(w, c, vs), v)
    decreases |vs|
  {
    if vs == [] {
      assert Final(Next(w, c, v), c, []) == Next(w, c, v);
    } else {
      assert (vs + [v])[1..] == vs[1..] + [v];
      OneMore(P, Next(w, c, vs[0]), c, vs[1..], v);
    }
  }

  /** A watchdog launch still under validation while STOP and START have put another process in its place. */
  lemma Superseded(c: Config) returns (vs: seq<Event>, w: World)
    requires Normal(c) && c.limit > 1
    ensures w == Final(Initial, c, vs) && Along(Separate, Initial, c, vs)
    ensures w.starts == {2} && w.alive == {1} && w.e.live && w.e.proc == Some(1) && w.stops == map[] && w.g == Initial.g
    ensures w.e.status == Running && w.e.generation == 4 && w.waits == map[1 := 4] && w.next == 2 && 1 !in w.ended
  {
    vs, w := Crash(c);
    vs, w := Then(Separate, Initial, c, vs, w, Elapse(2));
    vs, w := Then(Separate, Initial, c, vs, w, Event.Stop(0));
    assert w.starts == {2} && w.e.generation == 3 && w.e.status == Stopped && w.stops == map[];
    vs, w := Then(Separate, Initial, c, vs, w, Event.Start);
    assert w.starts == {2, 4} && w.e.generation == 4;
    vs, w := Then(Separate, Initial, c, vs, w, Launch(4, true));
  }

  lemma Crash(c: Config) returns (vs: seq<Event>, w: World)
    requires Normal(c) && c.limit > 1
    ensures w == Final(Initial, c, vs) && Along(Separate, Initial, c, vs)
    ensures w.e == Exec(true, Backoff, true, 2, Some(0), false, [0], 1, Some(2))
    ensures w.starts == {} && w.timers == {2} && w.waits == map[] && w.stops == map[] && w.alive == {}
    ensures w.ended == {0} && w.next == 1 && w.g == Initial.g
  {
    vs, w := Then(Separate, Initial, c, [], Initial, Event.Start);
    vs, w := Then(Separate, Initial, c, vs, w, Launch(1, true));
    assert w.waits == map[0 := 1] && w.alive == {0};
    vs, w := Then(Separate, Initial, c, vs, w, Die(0));
    vs, w := Then(Separate, Initial, c, vs, w, Wait(0, 0));
    assert WithCrash([], 0, c) == [0];
  }

  // ---- the watchdog over a run ------------------------------------------------------

  /** The wait is for the current process of an execution that is to run: a crash. */
  predicate IsCrash(w: World, v: Event) {
    v.Wait? && v.p in w.waits && v.p !in w.alive && w.e.proc == Some(v.p) && w.e.generation == w.waits[v.p]
      && w.e.desired
  }

  /** The times of the crashes of a run, and for each whether the watchdog set a timer. */
  function Crashes(w: World, c: Config, vs: seq<Event>): seq<int>
    decreases |vs|
  {
    if vs == [] then [] else (if IsCrash(w, vs[0]) then [vs[0].now] else []) + Crashes(Next(w, c, vs[0]), c, vs[1..])
  }

  function Timers(w: World, c: Config, vs: seq<Event>): seq<bool>
    decreases |vs|
  {
    if vs == [] then []
    else
      (if IsCrash(w, vs[0]) then [Next(w, c, vs[0]).e.generation != w.e.generation] else [])
      + Timers(Next(w, c, vs[0]), c, vs[1..])
  }

  /** A crash extends the list; a timer is set only below the limit; nothing else but Start touches the list. */
  lemma CrashStep(w: World, c: Config, v: Event)
    requires v != Start
    ensures Next(w, c, v).e.crashes == if IsCrash(w, v) then WithCrash(w.e.crashes, v.now, c) else w.e.crashes
    ensures Next(w, c, v).e.watched == w.e.watched
    ensures IsCrash(w, v) ==>
              (Next(w, c, v).e.generation != w.e.generation <==>
               w.e.watched && |WithCrash(w.e.crashes, v.now, c)| < c.limit)
  {
    match v
    case Launch(n, created) =>
    case Wait(p, now) =>
    case _ =>
  }

  /** After crashes at `past`, timers among those at `ts` are set where the watchdog restarts, and only there. */
  predicate Follows(past: seq<int>, ts: seq<int>, timers: seq<bool>, c: Config, watched: bool) {
    |timers| == |ts| && forall i :: 0 <= i < |ts| ==> FollowsAt(past, ts, timers, c, watched, i)
  }

  predicate FollowsAt(past: seq<int>, ts: seq<int>, timers: seq<bool>, c: Config, watched: bool, i: nat)
    requires i < |ts| == |timers|
  {
    timers[i] <==> watched && Restarts(past + ts, c, |past| + i)
  }

  /** The first crash after `past`. */
  lemma RestartsHere(past: seq<int>, now: int, ts: seq<int>, c: Config)
    ensures Restarts((past + [now]) + ts, c, |past|) <==> |WithCrash(CrashList(past, c), now, c)| < c.limit
  {
    assert ((past + [now]) + ts)[..|past| + 1] == past + [now];
    assert (past + [now])[..|past|] == past;
  }

  lemma FollowsCons(past: seq<int>, now: int, ts: seq<int>, timer: bool, timers: seq<bool>, c: Config, watched: bool)
    requires Follows(past + [now], ts, timers, c, watched)
    requires timer <==> watched && |WithCrash(CrashList(past, c), now, c)| < c.limit
    ensures Follows(past, [now] + ts, [timer] + timers, c, watched)
  {
    forall i | 0 <= i < |[now] + ts| ensures FollowsAt(past, [now] + ts, [timer] + timers, c, watched, i) {
      assert past + ([now] + ts) == (past + [now]) + ts;
      if i == 0 {
        RestartsHere(past, now, ts, c);
      } else {
        FollowsNext(past, now, ts, timer, timers, c, watched, i - 1);
      }
    }
  }

  lemma FollowsNext(past: seq<int>, now: int, ts: seq<int>, timer: bool, timers: seq<bool>, c: Config, watched: bool,
                    i: nat)
    requires i < |ts| == |timers| && FollowsAt(past + [now], ts, timers, c, watched, i)
    ensures FollowsAt(past, [now] + ts, [timer] + timers, c, watched, i + 1)
  {
    assert past + ([now] + ts) == (past + [now]) + ts;
    assert |past + [now]| + i == |past| + (i + 1);
  }

  lemma {:induction false} TimersFollowList(w: World, c: Config, vs: seq<Event>, past: seq<int>)
    requires w.e.crashes == CrashList(past, c) && Start !in vs
    ensures Follows(past, Crashes(w, c, vs), Timers(w, c, vs), c, w.e.watched)
    decreases |vs|
  {
    if vs != [] {
      var v, n := vs[0], Next(w, c, vs[0]);
      CrashStep(w, c, v);
      if IsCrash(w, v) {
        assert (past + [v.now])[..|past|] == past;
        TimersFollowList(n, c, vs[1..], past + [v.now]);
        FollowsCons(past, v.now, Crashes(n, c, vs[1..]), n.e.generation != w.e.generation, Timers(n, c, vs[1..]), c,
                    w.e.watched);
      } else {
        TimersFollowList(n, c, vs[1..], past);
        assert [] + Crashes(n, c, vs[1..]) == Crashes(n, c, vs[1..])
          && [] + Timers(n, c, vs[1..]) == Timers(n, c, vs[1..]);
      }
    }
  }

  /**
   In every run without an explicit Start, from the moment of one, with clock readings
   that do not go back: a crash of a watched execution sets a timer exactly if fewer than
   CrashLimit crashes, this one included, lie in the window that ends with it.
   */
  lemma WatchdogRestartsExactlyWhen(w: World, c: Config, vs: seq<Event>, i: nat)
    requires w.e.crashes == [] && Start !in vs && c.window > 0
    requires Ordered(Crashes(w, c, vs)) && i < |Crashes(w, c, vs)|
    ensures |Timers(w, c, vs)| == |Crashes(w, c, vs)|
    ensures Timers(w, c, vs)[i] <==> w.e.watched && |InWindow(Crashes(w, c, vs), i, c.window)| < c.limit
  {
    var ts, timers := Crashes(w, c, vs), Timers(w, c, vs);
    TimersFollowList(w, c, vs, []);
    assert FollowsAt([], ts, timers, c, w.e.watched, i);
    var none: seq<int> := [];
    assert none + ts == ts;
    RestartsExactlyWhen(ts, c, i);
  }

  function SetWithin(ts: seq<int>, timers: seq<bool>, a: int, window: int): set<nat> {
    set i: nat | i < |ts| && i < |timers| && timers[i] && a < ts[i] <= a + window
  }

  lemma FollowsNothing(ts: seq<int>, timers: seq<bool>, c: Config, i: nat)
    requires i < |ts| == |timers| && FollowsAt([], ts, timers, c, true, i) && timers[i]
    ensures Restarts(ts, c, i)
  {
    var none: seq<int> := [];
    assert none + ts == ts;
  }

  lemma BoundedByRestarts(ts: seq<int>, timers: seq<bool>, c: Config, watched: bool, a: int)
    requires Follows([], ts, timers, c, watched) && Normal(c) && Ordered(ts)
    ensures |SetWithin(ts, timers, a, c.window)| < c.limit
  {
    forall i | i in SetWithin(ts, timers, a, c.window) ensures i in RestartsWithin(ts, c, a) {
      assert FollowsAt([], ts, timers, c, watched, i);
      FollowsNothing(ts, timers, c, i);
    }
    SmallerSet(SetWithin(ts, timers, a, c.window), RestartsWithin(ts, c, a));
    WatchdogRateBound(ts, c, a);
  }

  /**
   In every run without an explicit Start, from the moment of one, with clock readings
   that do not go back, any window of length CrashWindow sees the watchdog set fewer
   than CrashLimit timers.
   */
  lemma WatchdogIsBounded(w: World, c: Config, vs: seq<Event>, a: int)
    requires Normal(c) && w.e.crashes == [] && Start !in vs && Ordered(Crashes(w, c, vs))
    ensures |SetWithin(Crashes(w, c, vs), Timers(w, c, vs), a, c.window)| < c.limit
  {
    TimersFollowList(w, c, vs, []);
    BoundedByRestarts(Crashes(w, c, vs), Timers(w, c, vs), c, w.e.watched, a);
  }
}
