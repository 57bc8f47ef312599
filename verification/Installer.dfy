/**
 The Linux installer's transaction. Every primitive may fail at any time, and one
 that failed may or may not have taken effect as far as its system calls allow.
 */
module Installer {
  import opened Common

  /** An artifact's content with its permissions and owner. */
  type Bytes = nat

  datatype ServiceState = ServiceState(enabled: bool, active: bool)

  datatype Action = Enable | Disable | Launch | Halt

  function Done(s: ServiceState, a: Action): ServiceState {
    match a
    case Enable => s.(enabled := true)
    case Disable => s.(enabled := false)
    case Launch => s.(active := true)
    case Halt => s.(active := false)
  }

  /** Binaries and units are replaced; a configuration that exists is preserved. */
  datatype Step = Replace(target: nat, bytes: Bytes) | Preserve(target: nat, bytes: Bytes)

  /**
   How a publication goes: it fails before anything is in place, or once the new
   file is; `Unremoved` when the temporary name of a new configuration cannot be removed.
   */
  datatype Fault = Fine | Before | Unremoved | After

  datatype Plan = Plan(steps: seq<Step>, services: seq<nat>, enable: bool, start: bool)

  datatype Progress = Prepared | Published | Restored | RestoreFailed

  datatype Artifact = Artifact(target: nat, existed: bool, state: Progress)

  datatype ServiceRollback = ServiceRollback(service: nat, before: ServiceState, enableTried: bool, startTried: bool)

  datatype Outcome = NotBegun | Installed | CommitFailed | RolledBack | RollbackFailed

  predicate Distinct(p: Plan) {
    && (forall i, j :: 0 <= i < j < |p.services| ==> p.services[i] != p.services[j])
    && (forall i, j :: 0 <= i < j < |p.steps| ==> p.steps[i].target != p.steps[j].target)
  }

  /** Whether the step succeeds on artifacts `was` under the fault. */
  predicate Succeeds(s: Step, fault: Fault, was: map<nat, Bytes>) {
    match s
    case Replace(_, _) => fault in {Fine, Unremoved}
    case Preserve(t, _) => if t in was then fault != Before else fault == Fine
  }

  /** A new configuration is linked and its temporary name stays. */
  predicate Strays(s: Step, fault: Fault, was: map<nat, Bytes>) {
    s.Preserve? && s.target !in was && fault == Unremoved
  }

  /** The first step from `i` on that fails, or their number. */
  function StopAt(p: Plan, faults: nat -> Fault, was: map<nat, Bytes>, i: nat): (n: nat)
    requires i <= |p.steps|
    ensures i <= n <= |p.steps| && (n < |p.steps| ==> !Succeeds(p.steps[n], faults(n), was))
    ensures forall j :: i <= j < n ==> Succeeds(p.steps[j], faults(j), was)
    decreases |p.steps| - i
  {
    if i == |p.steps| || !Succeeds(p.steps[i], faults(i), was) then i else StopAt(p, faults, was, i + 1)
  }

  /** Publication stops at a new configuration whose temporary name cannot be removed. */
  predicate LeavesStray(p: Plan, faults: nat -> Fault, was: map<nat, Bytes>) {
    var n := StopAt(p, faults, was, 0);
    n < |p.steps| && Strays(p.steps[n], faults(n), was)
  }

  function StrayTargets(p: Plan, faults: nat -> Fault, was: map<nat, Bytes>): set<nat> {
    if LeavesStray(p, faults, was) then {p.steps[StopAt(p, faults, was, 0)].target} else {}
  }

  /** `t` holds in `files` what it held in `was`. */
  predicate Same(files: map<nat, Bytes>, was: map<nat, Bytes>, t: nat) {
    (t in files <==> t in was) && (t in files ==> files[t] == was[t])
  }

  predicate OfTargets(artifacts: seq<Artifact>, t: nat) { exists i :: 0 <= i < |artifacts| && artifacts[i].target == t }

  /** The record lists the targets, and nothing from the n-th on is published. */
  predicate Listed(p: Plan, artifacts: seq<Artifact>, n: nat) {
    |artifacts| == |p.steps| &&
    forall i :: 0 <= i < |artifacts| ==>
      && artifacts[i].target == p.steps[i].target && artifacts[i].state in {Prepared, Published}
      && (n <= i ==> artifacts[i].state == Prepared)
  }

  predicate ArtifactFits(a: Artifact, files: map<nat, Bytes>, was: map<nat, Bytes>, stray: set<nat>) {
    (a.existed <==> a.target in was)
      && (a.state in {Prepared, Restored} ==> Same(files, was, a.target) || a.target in stray)
  }

  /** Everything that may differ from `was` is on record as published, or is `stray`. */
  ghost predicate Tracked(artifacts: seq<Artifact>, files: map<nat, Bytes>, was: map<nat, Bytes>, stray: set<nat>) {
    && (forall i :: 0 <= i < |artifacts| ==> ArtifactFits(artifacts[i], files, was, stray))
    && (forall t :: t in files || t in was ==> OfTargets(artifacts, t) || Same(files, was, t))
    && (forall t :: t in stray ==> t !in was)
  }

  /** Every artifact that existed has its rollback copy. */
  predicate Backed(copies: map<nat, Bytes>, was: map<nat, Bytes>, artifacts: seq<Artifact>) {
    forall i :: 0 <= i < |artifacts| && artifacts[i].target in was ==>
      artifacts[i].target in copies && copies[artifacts[i].target] == was[artifacts[i].target]
  }

  predicate ServiceFits(s: ServiceRollback, now: map<nat, ServiceState>, was: map<nat, ServiceState>) {
    && s.service in was && s.service in now && s.before == was[s.service]
    && (!s.enableTried ==> now[s.service].enabled == s.before.enabled)
    && (!s.startTried ==> now[s.service].active == s.before.active)
  }

  predicate Watched(services: seq<ServiceRollback>, now: map<nat, ServiceState>, was: map<nat, ServiceState>) {
    && now.Keys == was.Keys
    && (forall i, j :: 0 <= i < j < |services| ==> services[i].service != services[j].service)
    && (forall i :: 0 <= i < |services| ==> ServiceFits(services[i], now, was))
    && (forall s :: s in was ==> (exists i :: 0 <= i < |services| && services[i].service == s) || now[s] == was[s])
  }

  predicate ActivatedTo(p: Plan, n: nat, now: map<nat, ServiceState>) {
    forall i :: 0 <= i < n && i < |p.services| && p.services[i] in now ==>
      now[p.services[i]].enabled && (p.start ==> now[p.services[i]].active)
  }

  /** Raising one service lowers no other. */
  lemma ActivatedKept(p: Plan, n: nat, now: map<nat, ServiceState>, after: map<nat, ServiceState>, s: nat)
    requires ActivatedTo(p, n, now) && s in now
    requires after in {now[s := Done(now[s], Enable)], now[s := Done(now[s], Launch)]}
    ensures ActivatedTo(p, n, after)
  {
  }

  predicate EnablementRestored(list: seq<ServiceRollback>, now: map<nat, ServiceState>) {
    forall i :: 0 <= i < |list| && list[i].service in now ==> now[list[i].service].enabled == list[i].before.enabled
  }

  class Machine {
    var files: map<nat, Bytes>
    var copies: map<nat, Bytes>   // rollback copies, by the artifact they are of
    var services: map<nat, ServiceState>

    /** On a reliable machine only publications fail, as they are told to. */
    const reliable: bool

    constructor (files: map<nat, Bytes>, services: map<nat, ServiceState>, reliable: bool)
      ensures this.files == files && this.services == services && copies == map[] && this.reliable == reliable
    {
      this.files, this.services, copies, this.reliable := files, services, map[], reliable;
    }

    /** A primitive succeeds or fails. */
    method Try() returns (ok: bool)
      ensures reliable ==> ok
    {
      ok := *;
      if reliable { ok := true; }
    }

    method Systemctl(a: Action, s: nat) returns (ok: bool)
      requires s in services
      modifies this`services
      ensures services == old(services)[s := Done(old(services)[s], a)] || (!ok && services == old(services))
      ensures reliable ==> ok
    {
      var effective: bool := *;
      ok := Try();
      if ok || effective { services := services[s := Done(services[s], a)]; }
    }

    /** replaceFrom: a rename puts the new artifact in place before the directory is synced. */
    method ReplaceFile(t: nat, bytes: Bytes, fault: Fault) returns (ok: bool, published: bool)
      modifies this`files
      ensures ok == Succeeds(Replace(t, bytes), fault, old(files)) && published == (fault != Before)
      ensures ok <==> fault != Before && fault != After
      ensures files == if published then old(files)[t := bytes] else old(files)
    {
      if fault == Before { return false, false; }
      files := files[t := bytes];
      return fault != After, true;
    }

    /** createPreservedFile; `stray` when the new file stands but its temporary name could not be removed. */
    method PreserveFile(t: nat, bytes: Bytes, fault: Fault) returns (ok: bool, published: bool, stray: bool)
      modifies this`files
      ensures ok == Succeeds(Preserve(t, bytes), fault, old(files))
      ensures stray == Strays(Preserve(t, bytes), fault, old(files))
      ensures ok <==> if t in old(files) then fault != Before else fault == Fine
      ensures stray <==> t !in old(files) && fault == Unremoved
      ensures published == (t !in old(files) && fault in {Fine, After})
      ensures files == if published || stray then old(files)[t := bytes] else old(files)
    {
      if fault == Before { return false, false, false; }
      if t in files { return true, false, false; }
      files := files[t := bytes];
      if fault == Unremoved { return false, false, true; }
      return fault == Fine, true, false;
    }

    method RestoreFromCopy(t: nat) returns (ok: bool)
      requires t in copies
      modifies this`files
      ensures files == old(files)[t := copies[t]] || (!ok && files == old(files))
      ensures reliable ==> ok
    {
      var fault: Fault := *;
      var replaced: bool;
      ok, replaced := ReplaceFile(t, copies[t], if reliable then Fine else fault);
    }

    method RemoveFile(t: nat) returns (ok: bool)
      modifies this`files
      ensures files == old(files) - {t} || (!ok && files == old(files))
      ensures reliable ==> ok
    {
      ok := Try();
      if !ok { return; }
      files := files - {t};
      ok := Try();
    }

    // ---- rollback ---------------------------------------------------------------

    method StopStarted(list: seq<ServiceRollback>, ghost was: map<nat, ServiceState>) returns (ok: bool)
      requires Watched(list, services, was)
      modifies this`services
      ensures Watched(list, services, was)
      ensures reliable ==> ok
    {
      ok := true;
      for i := |list| downto 0
        invariant Watched(list, services, was)
        invariant reliable ==> ok
      {
        if list[i].startTried && !list[i].before.active {
          assert ServiceFits(list[i], services, was);
          ActedOn(list, services, was, i, Done(services[list[i].service], Halt));
          var stopped := Systemctl(Halt, list[i].service);
          ok := ok && stopped;
        }
      }
    }

    method RestoreEnablementAt(list: seq<ServiceRollback>, i: nat, ghost was: map<nat, ServiceState>) returns (ok: bool)
      requires Watched(list, services, was) && i < |list| && list[i].enableTried
      modifies this`services
      ensures Watched(list, services, was)
      ensures ok ==> services[list[i].service].enabled == list[i].before.enabled
      ensures reliable ==> ok
      ensures forall j :: 0 <= j < |list| && j != i ==> services[list[j].service] == old(services)[list[j].service]
    {
      var a := if list[i].before.enabled then Enable else Disable;
      assert ServiceFits(list[i], services, was);
      ActedOn(list, services, was, i, Done(services[list[i].service], a));
      ok := Systemctl(a, list[i].service);
    }

    method RestoreEnablement(list: seq<ServiceRollback>, ghost was: map<nat, ServiceState>) returns (ok: bool)
      requires Watched(list, services, was)
      modifies this`services
      ensures Watched(list, services, was)
      ensures ok ==> EnablementRestored(list, services)
      ensures reliable ==> ok
    {
      ok := true;
      for i := |list| downto 0
        invariant reliable ==> ok
        invariant Watched(list, services, was)
        invariant ok ==> forall j :: i <= j < |list| ==> services[list[j].service].enabled == list[j].before.enabled
      {
        if list[i].enableTried {
          var done := RestoreEnablementAt(list, i, was);
          ok := ok && done;
        }
      }
    }

    method RestoreActiveAt(list: seq<ServiceRollback>, i: nat, ghost was: map<nat, ServiceState>, ghost enabled: bool)
      returns (ok: bool)
      requires Watched(list, services, was) && i < |list| && list[i].startTried
               && (enabled ==> EnablementRestored(list, services))
      modifies this`services
      ensures Watched(list, services, was) && (enabled ==> EnablementRestored(list, services))
      ensures ok ==> services[list[i].service].active == list[i].before.active
      ensures reliable ==> ok
      ensures forall j :: 0 <= j < |list| && j != i ==> services[list[j].service] == old(services)[list[j].service]
    {
      var a := if list[i].before.active then Launch else Halt;
      assert ServiceFits(list[i], services, was);
      if enabled { EnablementKept(list, services, i, Done(services[list[i].service], a)); }
      ActedOn(list, services, was, i, Done(services[list[i].service], a));
      ok := Systemctl(a, list[i].service);
    }

    method RestoreActive(list: seq<ServiceRollback>, ghost was: map<nat, ServiceState>) returns (ok: bool)
      requires Watched(list, services, was)
      modifies this`services
      ensures Watched(list, services, was)
      ensures ok && EnablementRestored(list, old(services)) ==> services == was
      ensures reliable ==> ok
    {
      ok := true;
      ghost var enabled := EnablementRestored(list, services);
      for i := |list| downto 0
        invariant Watched(list, services, was)
        invariant reliable ==> ok
        invariant enabled ==> EnablementRestored(list, services)
        invariant ok ==> forall j :: i <= j < |list| ==> services[list[j].service].active == list[j].before.active
      {
        if list[i].startTried {
          var done := RestoreActiveAt(list, i, was, enabled);
          ok := ok && done;
        }
      }
      if ok && enabled { AllRestored(list, services, was); }
    }

    method RestoreArtifactAt(list: seq<Artifact>, i: nat, ghost was: map<nat, Bytes>, ghost stray: set<nat>)
      returns (after: Artifact)
      requires Tracked(list, files, was, stray) && Backed(copies, was, list) && i < |list|
      requires forall j, k :: 0 <= j < k < |list| ==> list[j].target != list[k].target
      requires list[i].state == Published
      modifies this`files
      ensures after == list[i].(state := Restored) || (!reliable && after == list[i].(state := RestoreFailed))
      ensures Tracked(list[i := after], files, was, stray)
      ensures forall t :: t != list[i].target ==> Same(files, old(files), t)
    {
      ghost var before := files;
      var done := Try();
      assert ArtifactFits(list[i], files, was, stray);
      if done {
        if list[i].existed { done := RestoreFromCopy(list[i].target); } else { done := RemoveFile(list[i].target); }
      }
      after := list[i].(state := if done then Restored else RestoreFailed);
      RestoredKeeps(list, before, files, was, stray, i, after.state);
    }

    method RestoreArtifacts(list: seq<Artifact>, ghost was: map<nat, Bytes>, ghost stray: set<nat>)
      returns (after: seq<Artifact>, ok: bool)
      requires Tracked(list, files, was, stray) && Backed(copies, was, list)
      requires forall i, j :: 0 <= i < j < |list| ==> list[i].target != list[j].target
      requires forall i :: 0 <= i < |list| ==>
                 list[i].state in {Prepared, Published} && (list[i].target in stray ==> list[i].state == Prepared)
      modifies this`files
      ensures ok ==> forall t :: t !in stray ==> Same(files, was, t)
      ensures forall t :: t in stray && t in old(files) ==> Same(files, old(files), t)
      ensures reliable ==> ok
    {
      after, ok := list, true;
      for i := |list| downto 0
        invariant reliable ==> ok
        invariant |after| == |list|
        invariant forall j :: 0 <= j < |list| ==> after[j] == list[j].(state := after[j].state)
        invariant forall j :: 0 <= j < i ==> after[j] == list[j]
        invariant forall t :: t in stray && t in old(files) ==> Same(files, old(files), t)
        invariant Tracked(after, files, was, stray)
        invariant ok ==> forall j :: i <= j < |list| ==> after[j].state in {Prepared, Restored}
      {
        if after[i].state == Published {
          ghost var before := files;
          var a := RestoreArtifactAt(after, i, was, stray);
          assert list[i].target !in stray && forall t :: t in stray ==> Same(files, before, t);
          ok := ok && a.state == Restored;
          after := after[i := a];
        }
      }
    }

    /** cleanupBackups. */
    method CleanUp() returns (ok: bool)
      modifies this`copies
      ensures ok ==> copies == map[]
      ensures forall t :: t in copies ==> t in old(copies) && copies[t] == old(copies)[t]
      ensures reliable ==> ok
    {
      ok := true;
      var todo := copies.Keys;
      while todo != {}
        invariant reliable ==> ok
        invariant copies.Keys <= old(copies).Keys && todo <= old(copies).Keys
        invariant forall t :: t in copies ==> copies[t] == old(copies)[t]
        invariant ok ==> copies.Keys <= todo
        decreases |todo|
      {
        var t :| t in todo;
        var removed := Try();
        if removed { copies := copies - {t}; } else { ok := false; }
        todo := todo - {t};
      }
      var synced := Try();
      if ok { assert copies.Keys == {}; }
      ok := ok && synced;
    }

    /** Whether everything is as it was before the transaction, `stray` artifacts aside. */
    method Rollback(artifacts: seq<Artifact>, list: seq<ServiceRollback>, ghost was: map<nat, Bytes>,
                    ghost before: map<nat, ServiceState>, ghost stray: set<nat>)
      returns (ok: bool)
      requires Tracked(artifacts, files, was, stray) && Backed(copies, was, artifacts)
      requires forall i, j :: 0 <= i < j < |artifacts| ==> artifacts[i].target != artifacts[j].target
      requires forall i :: 0 <= i < |artifacts| ==>
                 artifacts[i].state in {Prepared, Published}
                   && (artifacts[i].target in stray ==> artifacts[i].state == Prepared)
      requires Watched(list, services, before)
      modifies this
      ensures forall t :: t in stray && t in old(files) ==> Same(files, old(files), t)
      ensures ok ==> services == before && copies == map[] && forall t :: t !in stray ==> Same(files, was, t)
      ensures !ok ==> copies == old(copies) || forall t :: t !in stray ==> Same(files, was, t)
      ensures reliable ==> ok
    {
      var stopped := StopStarted(list, before);
      if !stopped {
        var enablement := RestoreEnablement(list, before);
        return false;
      }
      var after, restored := RestoreArtifacts(artifacts, was, stray);
      var reloaded := true;
      if exists i :: 0 <= i < |after| && after[i].state != Prepared { reloaded := Try(); }
      var enablement := RestoreEnablement(list, before);
      var active := false;
      if restored && reloaded { active := RestoreActive(list, before); }
      if !restored || !reloaded || !enablement || !active { return false; }
      ok := CleanUp();
    }

    // ---- installation -------------------------------------------------------------

    /** The states of the services and a durable copy of every artifact that exists. */
    method Begin(p: Plan) returns (ok: bool, artifacts: seq<Artifact>, list: seq<ServiceRollback>)
      requires Distinct(p) && copies == map[] && forall s :: s in p.services ==> s in services
      modifies this`copies
      ensures ok ==> |artifacts| == |p.steps|
                     && forall i :: 0 <= i < |artifacts| ==>
                          artifacts[i] == Artifact(p.steps[i].target, p.steps[i].target in files, Prepared)
      ensures ok ==> Backed(copies, files, artifacts)
      ensures ok ==> |list| == if p.enable then |p.services| else 0
      ensures ok ==> forall i :: 0 <= i < |list| ==>
                list[i] == ServiceRollback(p.services[i], services[p.services[i]], false, false)
      ensures reliable ==> ok
    {
      artifacts, list := [], [];
      if p.enable {
        for i := 0 to |p.services|
          invariant |list| == i && forall j :: 0 <= j < i ==>
                      list[j] == ServiceRollback(p.services[j], services[p.services[j]], false, false)
        {
          var read := Try();
          if !read { return false, [], []; }
          list := list + [ServiceRollback(p.services[i], services[p.services[i]], false, false)];
        }
      }
      for i := 0 to |p.steps|
        invariant |artifacts| == i && forall j :: 0 <= j < i ==>
                    artifacts[j] == Artifact(p.steps[j].target, p.steps[j].target in files, Prepared)
        invariant Backed(copies, files, artifacts)
      {
        var t := p.steps[i].target;
        var captured := Try();
        if !captured {
          var cleaned := CleanUp();
          return false, [], [];
        }
        if t in files { copies := copies[t := files[t]]; }
        artifacts := artifacts + [Artifact(t, t in files, Prepared)];
      }
      ok := true;
    }

    method Publish(s: Step, fault: Fault) returns (ok: bool, published: bool, stray: bool)
      modifies this`files
      ensures files == if published || stray then old(files)[s.target := s.bytes] else old(files)
      ensures ok == Succeeds(s, fault, old(files)) && stray == Strays(s, fault, old(files))
      ensures stray ==> !published
      ensures ok ==> Placed(s, files, old(files))
    {
      match s
      case Replace(t, bytes) =>
        ok, published := ReplaceFile(t, bytes, fault);
        stray := false;
      case Preserve(t, bytes) => ok, published, stray := PreserveFile(t, bytes, fault);
    }

    /** One publication, and its entry on record. */
    method PublishAt(p: Plan, fault: Fault, begun: seq<Artifact>, i: nat, ghost was: map<nat, Bytes>)
      returns (ok: bool, artifacts: seq<Artifact>, stray: set<nat>)
      requires Distinct(p) && i < |p.steps| && Listed(p, begun, i) && PlacedTo(p, i, files, was)
      requires Tracked(begun, files, was, {})
      modifies this`files
      ensures Listed(p, artifacts, if stray == {} then i + 1 else i)
      ensures stray == if Strays(p.steps[i], fault, was) then {p.steps[i].target} else {}
      ensures ok == Succeeds(p.steps[i], fault, was)
      ensures Tracked(artifacts, files, was, stray)
      ensures ok ==> PlacedTo(p, i + 1, files, was)
      ensures forall t :: t in stray ==> t in files && files[t] == p.steps[i].bytes
    {
      assert ArtifactFits(begun[i], files, was, {});
      ghost var before := files;
      var published, left;
      ok, published, left := Publish(p.steps[i], fault);
      PublishedKeeps(begun, before, was, i, p.steps[i], published, left);
      artifacts := if published then begun[i := begun[i].(state := Published)] else begun;
      stray := if left then {p.steps[i].target} else {};
    }

    /** installRole's publications, up to the first that fails. */
    method PublishAll(p: Plan, faults: nat -> Fault, begun: seq<Artifact>, ghost was: map<nat, Bytes>)
      returns (ok: bool, artifacts: seq<Artifact>, stray: set<nat>)
      requires Distinct(p) && files == was && Listed(p, begun, 0)
      requires forall i :: 0 <= i < |begun| ==> (begun[i].existed <==> begun[i].target in files)
      modifies this`files
      ensures Listed(p, artifacts, |p.steps|)
      ensures forall i :: 0 <= i < |artifacts| && artifacts[i].target in stray ==> artifacts[i].state == Prepared
      ensures Tracked(artifacts, files, was, stray)
      ensures ok ==> PlacedTo(p, |p.steps|, files, was)
      ensures ok <==> StopAt(p, faults, was, 0) == |p.steps|
      ensures stray == StrayTargets(p, faults, was)
      ensures forall t :: t in stray ==> t in files && files[t] == p.steps[StopAt(p, faults, was, 0)].bytes
    {
      ok, artifacts, stray := true, begun, {};
      var i := 0;
      while i < |p.steps|
        invariant ok && stray == {} && i <= |p.steps| && Listed(p, artifacts, i)
        invariant Tracked(artifacts, files, was, {}) && PlacedTo(p, i, files, was)
        invariant StopAt(p, faults, was, 0) == StopAt(p, faults, was, i)
      {
        ok, artifacts, stray := PublishAt(p, faults(i), artifacts, i, was);
        if !ok {
          assert StopAt(p, faults, was, i) == i;
          return;
        }
        i := i + 1;
      }
    }

    /** One activation, on record before it is tried. */
    method Attempt(list: seq<ServiceRollback>, i: nat, start: bool, ghost was: map<nat, ServiceState>)
      returns (ok: bool, after: seq<ServiceRollback>)
      requires Watched(list, services, was) && i < |list|
      modifies this`services
      ensures Watched(after, services, was)
      ensures after == list[i := if start then list[i].(startTried := true) else list[i].(enableTried := true)]
      ensures ok && list[i].service in services ==>
                services == old(services)[list[i].service :=
                  Done(old(services)[list[i].service], if start then Launch else Enable)]
      ensures reliable ==> ok
    {
      after := list[i := if start then list[i].(startTried := true) else list[i].(enableTried := true)];
      Recorded(list, services, was, i, after[i]);
      assert ServiceFits(after[i], services, was);
      var a := if start then Launch else Enable;
      ActedOn(after, services, was, i, Done(services[list[i].service], a));
      ok := Systemctl(a, list[i].service);
    }

    method Activate(p: Plan, begun: seq<ServiceRollback>, ghost was: map<nat, ServiceState>)
      returns (ok: bool, list: seq<ServiceRollback>)
      requires services == was && Watched(begun, services, was)
      requires |begun| == if p.enable then |p.services| else 0
      requires forall i :: 0 <= i < |begun| ==> begun[i].service == p.services[i]
      modifies this`services
      ensures Watched(list, services, was)
      ensures ok && p.enable ==> ActivatedTo(p, |p.services|, services)
      ensures reliable ==> ok
    {
      list, ok := begun, true;
      if !p.enable { return; }
      for i := 0 to |p.services|
        invariant ok && |list| == |begun| && forall j :: 0 <= j < |list| ==> list[j].service == p.services[j]
        invariant Watched(list, services, was)
        invariant ActivatedTo(p, i, services)
      {
        ghost var before := services;
        ok, list := Attempt(list, i, false, was);
        if !ok { return; }
        ActivatedKept(p, i, before, services, list[i].service);
        if p.start {
          before := services;
          ok, list := Attempt(list, i, true, was);
          if !ok { return; }
          ActivatedKept(p, i, before, services, list[i].service);
        }
      }
    }

    /**
     All or nothing, but for one case: a rollback that reports success restores every
     artifact exactly when publication did not stop at a new configuration whose
     temporary name cannot be removed.
     */
    method Install(p: Plan, faults: nat -> Fault) returns (v: Outcome, stray: set<nat>)
      requires Distinct(p) && copies == map[] && forall s :: s in p.services ==> s in services
      modifies this
      ensures v != NotBegun ==> stray == StrayTargets(p, faults, old(files))
      ensures v == NotBegun ==> files == old(files) && services == old(services)
      ensures v == RolledBack ==> services == old(services) && copies == map[]
      ensures v == RolledBack ==> (files == old(files) <==> !LeavesStray(p, faults, old(files)))
      ensures v == RolledBack ==> forall t :: t !in stray ==> Same(files, old(files), t)
      ensures v == RolledBack ==>
                forall t :: t in stray ==> t in files && files[t] == p.steps[StopAt(p, faults, old(files), 0)].bytes
      ensures v == RollbackFailed ==>
                forall i :: 0 <= i < |p.steps| ==> Recoverable(p.steps[i].target, files, copies, old(files))
      ensures v in {Installed, CommitFailed} ==> forall i :: 0 <= i < |p.steps| ==>
                Placed(p.steps[i], files, old(files))
      ensures v == Installed ==> copies == map[]
      ensures v in {Installed, CommitFailed} && p.enable ==>
                forall s :: s in p.services && s in services ==> services[s].enabled && (p.start ==> services[s].active)
      ensures reliable ==> v == if StopAt(p, faults, old(files), 0) == |p.steps| then Installed else RolledBack
    {
      stray := {};
      var begun, artifacts, list := Begin(p);
      if !begun { return NotBegun, {}; }
      ghost var was, before := files, services;
      assert Watched(list, services, before);
      var ok: bool;
      ok, artifacts, stray := PublishAll(p, faults, artifacts, was);
      if ok { ok := Try(); }
      if ok { ok, list := Activate(p, list, before); }
      if !ok {
        var rolled := Rollback(artifacts, list, was, before, stray);
        if rolled {
          StrayOnly(files, was, stray);
          return RolledBack, stray;
        }
        return RollbackFailed, stray;
      }
      var cleaned := CleanUp();
      v := if cleaned then Installed else CommitFailed;
    }
  }

  /** On an empty machine that fails at nothing else, one stuck temporary name is enough. */
  method StrayRun(t: nat, bytes: Bytes) returns (m: Machine, v: Outcome)
    ensures v == RolledBack && m.files == map[t := bytes] && m.copies == map[]
  {
    m := new Machine(map[], map[], true);
    var p := Plan([Preserve(t, bytes)], [], false, false);
    var faults := (i: nat) => Unremoved;
    assert Strays(p.steps[0], faults(0), m.files) && !Succeeds(p.steps[0], faults(0), m.files);
    assert StopAt(p, faults, m.files, 0) == 0;
    var stray;
    v, stray := m.Install(p, faults);
    assert stray == {t} && t in m.files;
    assert forall u :: u in m.files ==> u in stray || Same(m.files, map[], u);
  }

  /** Publication stops at the first step that fails, and at none before. */
  lemma StopsAtFirstFailure(p: Plan, faults: nat -> Fault, was: map<nat, Bytes>)
    ensures var n := StopAt(p, faults, was, 0);
            && (forall i :: 0 <= i < n ==> faults(i) in {Fine, Unremoved, After})
            && (forall i :: 0 <= i < n && p.steps[i].Replace? ==> faults(i) in {Fine, Unremoved})
            && (forall i :: 0 <= i < n && p.steps[i].Preserve? && p.steps[i].target !in was ==> faults(i) == Fine)
            && (n < |p.steps| ==> faults(n) != Fine)
            && (LeavesStray(p, faults, was) <==>
                  n < |p.steps| && p.steps[n].Preserve? && p.steps[n].target !in was && faults(n) == Unremoved)
  {
  }

  /** systemctl does what it says to the one property it names. */
  lemma ActionsAre(s: ServiceState, a: Action)
    ensures var d := Done(s, a);
            && (a in {Enable, Disable} ==> d.active == s.active && (d.enabled <==> a == Enable))
            && (a in {Launch, Halt} ==> d.enabled == s.enabled && (d.active <==> a == Launch))
  {
  }

  /** A publication is on record, or its artifact is stray. */
  lemma PublishedKeeps(artifacts: seq<Artifact>, files: map<nat, Bytes>, was: map<nat, Bytes>, i: nat, s: Step,
                       published: bool, left: bool)
    requires Tracked(artifacts, files, was, {}) && i < |artifacts| && artifacts[i].target == s.target
             && artifacts[i].state == Prepared
    requires left ==> !published && s.target !in files
    requires forall j, k :: 0 <= j < k < |artifacts| ==> artifacts[j].target != artifacts[k].target
    ensures var after := if published || left then files[s.target := s.bytes] else files;
            Tracked(if published then artifacts[i := artifacts[i].(state := Published)] else artifacts,
                    after, was, if left then {s.target} else {})
  {
    var after := if published || left then files[s.target := s.bytes] else files;
    var list := if published then artifacts[i := artifacts[i].(state := Published)] else artifacts;
    assert ArtifactFits(artifacts[i], files, was, {});
    forall j | 0 <= j < |list| ensures ArtifactFits(list[j], after, was, if left then {s.target} else {}) {
      assert ArtifactFits(artifacts[j], files, was, {});
    }
    forall t | OfTargets(artifacts, t) ensures OfTargets(list, t) {
      var j :| 0 <= j < |artifacts| && artifacts[j].target == t;
      assert list[j].target == t;
    }
    assert list[i].target == s.target;
  }

  /** One artifact is restored, or its restoration failed with or without effect. */
  lemma RestoredKeeps(list: seq<Artifact>, files: map<nat, Bytes>, after: map<nat, Bytes>, was: map<nat, Bytes>,
                      stray: set<nat>, i: nat, state: Progress)
    requires Tracked(list, files, was, stray) && i < |list| && state in {Restored, RestoreFailed}
    requires forall j, k :: 0 <= j < k < |list| ==> list[j].target != list[k].target
    requires forall t :: t != list[i].target ==> Same(after, files, t)
    requires state == Restored ==> Same(after, was, list[i].target)
    ensures Tracked(list[i := list[i].(state := state)], after, was, stray)
  {
    var now := list[i := list[i].(state := state)];
    forall j | 0 <= j < |now| ensures ArtifactFits(now[j], after, was, stray) {
      assert ArtifactFits(list[j], files, was, stray);
      assert j != i ==> Same(after, files, list[j].target);
    }
    forall t | OfTargets(list, t) ensures OfTargets(now, t) {
      var j :| 0 <= j < |list| && list[j].target == t;
      assert now[j].target == t;
    }
    assert OfTargets(list, list[i].target);
    forall t | (t in after || t in was) && !OfTargets(now, t) ensures Same(after, was, t) {
      assert t != list[i].target && Same(after, files, t);
    }
  }

  predicate Placed(s: Step, files: map<nat, Bytes>, was: map<nat, Bytes>) {
    s.target in files && files[s.target] == if s.Preserve? && s.target in was then was[s.target] else s.bytes
  }

  predicate PlacedTo(p: Plan, n: nat, files: map<nat, Bytes>, was: map<nat, Bytes>) {
    forall i :: 0 <= i < n && i < |p.steps| ==> Placed(p.steps[i], files, was)
  }

  /** An artifact that existed and is not what it was still has its rollback copy. */
  predicate Recoverable(t: nat, files: map<nat, Bytes>, copies: map<nat, Bytes>, was: map<nat, Bytes>) {
    t in was && !Same(files, was, t) ==> t in copies && copies[t] == was[t]
  }

  lemma StrayOnly(files: map<nat, Bytes>, was: map<nat, Bytes>, stray: set<nat>)
    requires forall t :: t !in stray ==> Same(files, was, t)
    requires forall t :: t in stray ==> t in files && t !in was
    ensures files == was <==> stray == {}
  {
    if stray == {} {
      forall t | t in files || t in was ensures Same(files, was, t) { }
    } else {
      var t :| t in stray;
    }
  }

  /** An attempted action touches one service, and only in what it was attempted on. */
  lemma ActedOn(list: seq<ServiceRollback>, now: map<nat, ServiceState>, was: map<nat, ServiceState>, i: nat,
                v: ServiceState)
    requires Watched(list, now, was) && i < |list| && list[i].service in now
    requires v.enabled == now[list[i].service].enabled || list[i].enableTried
    requires v.active == now[list[i].service].active || list[i].startTried
    ensures Watched(list, now[list[i].service := v], was)
  {
    var after := now[list[i].service := v];
    forall j | 0 <= j < |list| ensures ServiceFits(list[j], after, was) { assert ServiceFits(list[j], now, was); }
  }

  lemma EnablementKept(list: seq<ServiceRollback>, now: map<nat, ServiceState>, i: nat, v: ServiceState)
    requires EnablementRestored(list, now) && i < |list| && list[i].service in now
             && v.enabled == now[list[i].service].enabled
    ensures EnablementRestored(list, now[list[i].service := v])
  {
  }

  /** Putting an attempt on record keeps the record true. */
  lemma Recorded(list: seq<ServiceRollback>, now: map<nat, ServiceState>, was: map<nat, ServiceState>, i: nat,
                 r: ServiceRollback)
    requires Watched(list, now, was) && i < |list| && r.service == list[i].service && r.before == list[i].before
    requires (list[i].enableTried ==> r.enableTried) && (list[i].startTried ==> r.startTried)
    ensures Watched(list[i := r], now, was)
  {
    var after := list[i := r];
    forall j | 0 <= j < |after| ensures ServiceFits(after[j], now, was) { assert ServiceFits(list[j], now, was); }
    forall s | s in was && now[s] != was[s] ensures exists j :: 0 <= j < |after| && after[j].service == s {
      var j :| 0 <= j < |list| && list[j].service == s;
      assert after[j].service == s;
    }
  }

  lemma AllRestored(list: seq<ServiceRollback>, now: map<nat, ServiceState>, was: map<nat, ServiceState>)
    requires Watched(list, now, was)
    requires EnablementRestored(list, now) && forall i :: 0 <= i < |list| ==>
               now[list[i].service].active == list[i].before.active
    ensures now == was
  {
    forall s | s in was ensures now[s] == was[s] {
      if i :| 0 <= i < |list| && list[i].service == s { assert ServiceFits(list[i], now, was); }
    }
  }
}
