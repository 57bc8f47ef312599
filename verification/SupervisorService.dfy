/** The Supervisor's state and the sections of its methods that hold the mutex. */
module SupervisorService {
  import opened Common
  import opened Watchdog
  import opened Supervisor

  class Service {
    const config: Config
    var executions: map<nat, Exec>
    var maintenance: bool
    var holdRevision: nat
    var closed: bool

    function GateNow(): Gate
      reads this
    {
      Gate(maintenance, holdRevision, closed)
    }

    /** The execution as Start finds it: an unknown one is new. */
    function Known(id: nat): Exec
      reads this
    {
      if id in executions then executions[id] else NewExec
    }

    constructor (c: Config)
      ensures config == c && executions == map[] && GateNow() == Gate(false, 0, false)
    {
      config, executions, maintenance, holdRevision, closed := c, map[], false, 0, false;
    }

    /** The generation startExisting is to launch, if any. */
    method Start(id: nat) returns (launch: Option<nat>)
      modifies this`executions
      ensures var was, now := old(Known(id)), StartRequested(old(Known(id)), GateNow());
              && launch == (if now.generation == was.generation then None else Some(now.generation))
              && executions == if launch.None? then old(executions) else old(executions)[id := now]
      ensures launch.None? <==>
                || closed || maintenance
                || (id in old(executions) && old(executions)[id].desired
                    && old(executions)[id].status in {Running, Starting, Backoff})
      ensures launch.Some? ==>
                && executions[id].desired && executions[id].generation == launch.value
                && executions[id].crashes == [] && executions[id].backoff == None
                && launch.value == if id in old(executions) then old(executions)[id].generation + 1 else 1
    {
      if closed || maintenance { return None; }
      if id in executions {
        var e := executions[id];
        if e.desired && e.status in {Running, Starting, Backoff} { return None; }
        e := e.(desired := true, backoff := None, crashes := [], generation := e.generation + 1,
                status := if e.generation == 0 then Starting else e.status);
        executions := executions[id := e];
        return Some(e.generation);
      }
      executions := executions[id := Exec(true, Starting, true, 1, None, false, [], 0, None)];
      return Some(1);
    }

    /** After validation, under the mutex: the process is created here or not at all. */
    method Launch(id: nat, generation: nat, p: nat, starts: bool) returns (created: bool)
      requires id in executions
      modifies this`executions
      ensures executions == old(executions)[id := Launched(old(executions[id]), GateNow(), generation, p, starts)]
      ensures created ==>
                !maintenance && !closed && old(executions[id]).desired && old(executions[id]).generation == generation
      ensures var e := old(executions[id]);
              created <==> starts && !maintenance && !closed && e.desired && e.generation == generation
      ensures created ==> executions[id].live && executions[id].proc == Some(p) && executions[id].status == Running
    {
      var e := executions[id];
      created := false;
      if maintenance {
        e := e.(desired := false, status := Stopped, generation := e.generation + 1);
      } else if e.desired && e.generation == generation && !closed {
        if starts {
          e := e.(proc := Some(p), live := true, status := Running);
          created := true;
        } else {
          e := e.(proc := Some(p), status := Failed, desired := false);
        }
      }
      executions := executions[id := e];
    }

    /** The generation the watchdog's timer is set for, if it restarts. */
    method ProcessExited(id: nat, p: nat, generation: nat, now: int) returns (timer: Option<(nat, int)>)
      requires id in executions && Normal(config)
      modifies this`executions
      ensures executions == old(executions)[id := Exited(old(executions[id]), config, p, generation, now)]
      ensures var e := old(executions[id]);
              var crashed := e.proc == Some(p) && e.generation == generation && e.desired;
              var n := 1 + |After(e.crashes, now - config.window)|;
              && (timer.Some? <==> crashed && e.watched && n < config.limit)
              && (timer.Some? ==> timer.value == (generation + 1, Delay(config, n)))
              && (crashed ==>
                    && executions[id].desired == timer.Some? && !executions[id].live
                    && executions[id].status
                       == if timer.Some? then Backoff else if e.watched then Failed else Crashed)
    {
      RecentCounts(executions[id].crashes, now - config.window);
      timer := None;
      var e := executions[id];
      if e.proc == Some(p) && e.generation == generation {
        e := e.(live := false);
        if !e.desired {
          e := e.(status := Stopped);
        } else {
          e := e.(crashes := Recent(e.crashes, now - config.window) + [now]);
          if !e.watched {
            e := e.(desired := false, status := Crashed);
          } else if |e.crashes| >= config.limit {
            e := e.(desired := false, status := Failed);
          } else {
            e := e.(status := Backoff, restarts := e.restarts + 1, generation := e.generation + 1,
                    backoff := Some(e.generation + 1));
            timer := Some((e.generation, Delay(config, |e.crashes|)));
          }
        }
      }
      executions := executions[id := e];
    }

    /** The process to signal and wait for, if there is one. */
    method Stop(id: nat) returns (await: Option<nat>)
      modifies this`executions
      ensures id !in old(executions) ==> await == None && executions == old(executions)
      ensures id in old(executions) ==>
                && executions == old(executions)[id := StopRequested(old(executions[id]))]
                && await == if NothingToStop(old(executions[id])) then None else old(executions[id]).proc
      ensures id in old(executions) ==>
                var e := old(executions[id]);
                && !executions[id].desired && executions[id].backoff == None
                && (if e.live && e.status != Stopped then
                      await == e.proc && executions[id].status == Stopping && executions[id].generation == e.generation
                    else
                      await == None && executions[id].status == Stopped
                      && executions[id].generation == e.generation + 1)
    {
      if id !in executions { return None; }
      var e := executions[id].(desired := false, backoff := None);
      if e.status == Stopped || !e.live {
        e := e.(generation := e.generation + 1, status := Stopped);
        await := None;
      } else {
        e := e.(status := Stopping);
        await := e.proc;
      }
      executions := executions[id := e];
    }

    /** Whether the hold was accepted, and the executions it is to stop, all of them if it is active. */
    method ApplyMaintenanceHold(active: bool, revision: nat) returns (ok: bool, ids: set<nat>)
      modifies this`maintenance, this`holdRevision
      ensures ok <==> !HoldRefused(old(GateNow()), active, revision)
      ensures GateNow() == HoldApplied(old(GateNow()), active, revision)
      ensures ok ==> ids == if maintenance then set id | id in executions && MustStop(executions[id]) else {}
      ensures ok <==> old(holdRevision) < revision || (revision == old(holdRevision) && active == old(maintenance))
      ensures ok ==> maintenance == active && holdRevision == revision
      ensures !ok ==> maintenance == old(maintenance) && holdRevision == old(holdRevision) && ids == {}
      ensures forall id :: id in ids <==>
                && ok && maintenance && id in executions
                && (executions[id].desired
                    || executions[id].status in {Starting, Running, Stopping, Crashed, Backoff, Failed})
    {
      ids := {};
      if revision < holdRevision || (revision == holdRevision && active != maintenance) { return false, ids; }
      if revision > holdRevision {
        holdRevision, maintenance := revision, active;
      }
      if maintenance {
        var todo := executions.Keys;
        while todo != {}
          invariant todo <= executions.Keys
          invariant ids == set id | id in executions && id !in todo && MustStop(executions[id])
          decreases |todo|
        {
          var id :| id in todo;
          if executions[id].desired || executions[id].status != Stopped { ids := ids + {id}; }
          todo := todo - {id};
        }
      }
      return true, ids;
    }
  }
}
