/**
  The task scheduler (internal/scheduler/scheduler.go): a reconcile decides
  whether a task is due, fires it, and records the outcome on the Task through
  merge patches (section 2 of RFC 7396). The API server and the run are the
  environment: Env says what the reconcile reads, which writes land and when the
  run ends. Times are seconds, due times minutes.
*/
module Scheduler {
  import opened Common
  import opened Cron

  // ---- the API server ------------------------------------------------------

  datatype Outcome = Success | Failure

  datatype Status = Status(lastRun: Option<nat>, runName: Option<string>, lastStatus: Option<Outcome>, nextRun: Option<nat>)

  datatype RunPhase = Created | Running | Completed | Failed

  /** The persisted Task status and TaskRuns, and whether the Task carries the manual-run annotation. */
  datatype Server = Server(status: Status, runs: map<string, RunPhase>, manual: bool)

  function Merged<T(==)>(base: T, local: T, target: T): T {
    if local == base then target else local
  }

  /** A merge patch computed from `base` to `local`, applied to `target`: only the changed fields travel. */
  function MergePatch(base: Status, local: Status, target: Status): Status {
    Status(Merged(base.lastRun, local.lastRun, target.lastRun),
           Merged(base.runName, local.runName, target.runName),
           Merged(base.lastStatus, local.lastStatus, target.lastStatus),
           Merged(base.nextRun, local.nextRun, target.nextRun))
  }

  // ---- what one reconcile meets ---------------------------------------------

  datatype FireEnv = FireEnv(
    instanceMissing: bool, promptBlank: bool, runName: string, createOk: bool,
    runningOk: bool, startOk: bool, runErr: bool, runFinishOk: bool, finishedAt: nat, taskOk: bool)

  datatype CronSpec = Blank | Invalid | Expr(cron: Cron)

  /** A manual run may be requested before the reconcile reads the Task, or later, while it runs. */
  datatype Env = Env(now: nat, pressed: bool, pressedLate: bool, clearOk: bool,
    enabled: bool, spec: CronSpec, nextOk: bool, fire: FireEnv)

  datatype Event =
    | Fired(cron: bool, due: nat)
    | Recorded(at: nat)   // a Task patch carrying LastRunTime landed

  // ---- reconcile as a function ---------------------------------------------

  /** A Task status patch: the server's answer becomes the local object, a failure leaves it as it is. */
  function PatchTask(srv: Server, base: Status, local: Status, ok: bool): (Server, Status) {
    if ok then var s := MergePatch(base, local, srv.status); (srv.(status := s), s) else (srv, local)
  }

  function PatchRun(srv: Server, name: string, phase: RunPhase, ok: bool): Server {
    if ok then srv.(runs := srv.runs[name := phase]) else srv
  }

  function SkippedOf(srv: Server, local: Status, e: FireEnv): (Server, seq<Event>) {
    if !e.createOk then (srv, [])
    else
      var srv1 := PatchRun(srv, e.runName, Created, true);
      if !e.runFinishOk then (srv1, [])
      else
        var srv2 := PatchRun(srv1, e.runName, Failed, true);
        var after := local.(lastRun := Some(e.finishedAt), runName := Some(e.runName), lastStatus := Some(Failure));
        (PatchTask(srv2, local, after, e.taskOk).0, if e.taskOk then [Recorded(e.finishedAt)] else [])
  }

  function FinishPhase(e: FireEnv): RunPhase {
    if e.runErr then Failed else Completed
  }

  function FireOf(srv: Server, local: Status, e: FireEnv): (Server, seq<Event>) {
    if e.instanceMissing || e.promptBlank then SkippedOf(srv, local, e)
    else if !e.createOk then (srv, [])
    else
      var srv1 := PatchRun(PatchRun(srv, e.runName, Created, true), e.runName, Running, e.runningOk);
      var started := PatchTask(srv1, local, local.(runName := Some(e.runName)), e.startOk);
      var srv2 := PatchRun(started.0, e.runName, FinishPhase(e), e.runFinishOk);
      var after := started.1.(lastRun := Some(e.finishedAt), lastStatus := Some(if e.runErr then Failure else Success));
      (PatchTask(srv2, local, after, e.taskOk).0, if e.taskOk then [Recorded(e.finishedAt)] else [])
  }

  function BaseOf(creation: nat, s: Status): nat {
    match s.lastRun
    case Some(t) => t
    case None => creation
  }

  /** The next fire time of a valid expression, and whether it is due. The zero time, for none, is written as null. */
  ghost function NextDueOf(creation: nat, s: Status, c: Cron, now: nat): (Option<nat>, bool) {
    var next := NextAfterOf(c, BaseOf(creation, s));
    (next, next.Some? && 60 * next.value <= now)
  }

  function PatchNextOf(srv: Server, local: Status, next: Option<nat>, ok: bool): (Server, Status) {
    if local.nextRun == next then (srv, local) else PatchTask(srv, local, local.(nextRun := next), ok)
  }

  ghost function ScheduledOf(srv: Server, creation: nat, e: Env): (Server, seq<Event>) {
    var local := srv.status;
    if !e.enabled then (PatchNextOf(srv, local, None, e.nextOk).0, [])
    else match e.spec {
      case Blank => (srv, [])
      case Invalid => (PatchNextOf(srv, local, None, e.nextOk).0, [])
      case Expr(c) =>
        var (next, due) := NextDueOf(creation, local, c, e.now);
        var patched := PatchNextOf(srv, local, next, e.nextOk);
        if !due then (patched.0, [])
        else
          var r := FireOf(patched.0, patched.1, e.fire);
          (r.0, [Fired(true, next.value)] + r.1)
    }
  }

  /** A requested run goes first, and its request is then cleared, with any that came while it ran. */
  ghost function ReconcileOf(srv: Server, creation: nat, e: Env): (Server, seq<Event>) {
    if srv.manual || e.pressed then
      var r := FireOf(srv, srv.status, e.fire);
      (r.0.(manual := !e.clearOk), [Fired(false, e.now / 60)] + r.1)
    else
      var r := ScheduledOf(srv, creation, e);
      (r.0.(manual := e.pressedLate), r.1)
  }

  // ---- the reconciler ------------------------------------------------------

  class Reconciler {
    /** What the API server holds. */
    var status: Status
    var runs: map<string, RunPhase>
    var manual: bool

    ghost function Srv(): Server
      reads this
    {
      Server(status, runs, manual)
    }

    constructor (status: Status)
      ensures Srv() == Server(status, map[], false)
    {
      this.status := status;
      runs := map[];
      manual := false;
    }

    method PatchStatus(base: Status, local: Status, ok: bool) returns (resp: Status)
      modifies this
      ensures (Srv(), resp) == PatchTask(old(Srv()), base, local, ok)
      ensures !ok ==> status == old(status) && resp == local
      ensures ok ==> resp == status
      ensures ok ==> status.lastRun == if local.lastRun == base.lastRun then old(status).lastRun else local.lastRun
      ensures ok ==> status.runName == if local.runName == base.runName then old(status).runName else local.runName
      ensures ok ==> status.lastStatus == if local.lastStatus == base.lastStatus then old(status).lastStatus else local.lastStatus
      ensures ok ==> status.nextRun == if local.nextRun == base.nextRun then old(status).nextRun else local.nextRun
      ensures runs == old(runs) && manual == old(manual)
    {
      resp := local;
      if ok {
        var s := status;
        if local.lastRun != base.lastRun { s := s.(lastRun := local.lastRun); }
        if local.runName != base.runName { s := s.(runName := local.runName); }
        if local.lastStatus != base.lastStatus { s := s.(lastStatus := local.lastStatus); }
        if local.nextRun != base.nextRun { s := s.(nextRun := local.nextRun); }
        status := s;
        resp := s;
      }
    }

    method PatchRunStatus(name: string, phase: RunPhase, ok: bool)
      modifies this
      ensures Srv() == PatchRun(old(Srv()), name, phase, ok)
      ensures runs == (if ok then old(runs)[name := phase] else old(runs)) && status == old(status) && manual == old(manual)
    {
      if ok {
        runs := runs[name := phase];
      }
    }

    method RecordSkippedRun(task: Status, e: FireEnv) returns (evs: seq<Event>)
      modifies this
      ensures (Srv(), evs) == SkippedOf(old(Srv()), task, e)
    {
      evs := [];
      if !e.createOk {
        return;
      }
      PatchRunStatus(e.runName, Created, true);
      PatchRunStatus(e.runName, Failed, e.runFinishOk);
      if !e.runFinishOk {
        // Not recorded as Failed: the occurrence is not handled, so no LastRun advance.
        return;
      }
      var local := task.(lastRun := Some(e.finishedAt), runName := Some(e.runName), lastStatus := Some(Failure));
      var _ := PatchStatus(task, local, e.taskOk);
      if e.taskOk {
        evs := [Recorded(e.finishedAt)];
      }
    }

    method Fire(task: Status, e: FireEnv) returns (evs: seq<Event>)
      modifies this
      ensures (Srv(), evs) == FireOf(old(Srv()), task, e)
    {
      evs := [];
      if e.instanceMissing || e.promptBlank {
        evs := RecordSkippedRun(task, e);
        return;
      }
      if !e.createOk {
        return;
      }
      PatchRunStatus(e.runName, Created, true);
      PatchRunStatus(e.runName, Running, e.runningOk);
      // One baseline for both Task writes, taken before the mutation.
      var base := task;
      var local := task.(runName := Some(e.runName));
      local := PatchStatus(base, local, e.startOk);
      PatchRunStatus(e.runName, FinishPhase(e), e.runFinishOk);
      local := local.(lastRun := Some(e.finishedAt));
      local := local.(lastStatus := Some(Success));
      if e.runErr {
        local := local.(lastStatus := Some(Failure));
      }
      local := PatchStatus(base, local, e.taskOk);
      if e.taskOk {
        evs := [Recorded(e.finishedAt)];
      }
    }

    method NextDue(creation: nat, task: Status, c: Cron, now: nat) returns (next: Option<nat>, due: bool)
      ensures (next, due) == NextDueOf(creation, task, c, now)
    {
      var base := creation;
      if task.lastRun.Some? {
        base := task.lastRun.value;
      }
      next := NextAfter(c, base);
      NextAfterUnique(c, base, next, NextAfterOf(c, base));
      due := next.Some? && 60 * next.value <= now;
    }

    method PatchNextRun(task: Status, next: Option<nat>, ok: bool) returns (local: Status)
      modifies this
      ensures (Srv(), local) == PatchNextOf(old(Srv()), task, next, ok)
    {
      local := task;
      if task.nextRun == next {
        return;
      }
      local := PatchStatus(task, task.(nextRun := next), ok);
    }

    method ReconcileSchedule(creation: nat, e: Env) returns (evs: seq<Event>)
      modifies this
      ensures (Srv(), evs) == ScheduledOf(old(Srv()), creation, e)
    {
      evs := [];
      var task := status;
      if !e.enabled {
        task := PatchNextRun(task, None, e.nextOk);
        return;
      }
      match e.spec {
        case Blank =>
        case Invalid => task := PatchNextRun(task, None, e.nextOk);
        case Expr(c) =>
          var next, due := NextDue(creation, task, c, e.now);
          task := PatchNextRun(task, next, e.nextOk);
          if due {
            var fired := Fire(task, e.fire);
            evs := [Fired(true, next.value)] + fired;
          }
      }
    }

    method Reconcile(creation: nat, e: Env) returns (evs: seq<Event>)
      modifies this
      ensures (Srv(), evs) == ReconcileOf(old(Srv()), creation, e)
    {
      if manual || e.pressed {
        var fired := Fire(status, e.fire);
        manual := !e.clearOk;
        return [Fired(false, e.now / 60)] + fired;
      }
      evs := ReconcileSchedule(creation, e);
      manual := e.pressedLate;
    }
  }

  // ---- one fire ------------------------------------------------------------

  /** When the finish patch lands the Task names this run, whether or not the start patch landed. */
  lemma FinishNamesThisRun(srv: Server, local: Status, e: FireEnv)
    requires local.runName != Some(e.runName)
    ensures Recorded(e.finishedAt) in FireOf(srv, local, e).1 ==>
      FireOf(srv, local, e).0.status.runName == Some(e.runName)
  {
  }

  /** A baseline taken after the mutation would lose the name when the start patch fails. */
  lemma LateBaselineLosesTheName(srv: Server, local: Status, name: string, at: nat)
    requires local == srv.status && local.runName != Some(name)
    ensures var mutated := local.(runName := Some(name));
      var started := PatchTask(srv, mutated, mutated, false);
      PatchTask(started.0, mutated, started.1.(lastRun := Some(at)), true).0.status.runName != Some(name)
  {
  }

  /** A fire changes LastRunTime only by recording its end; the skip path only with a persisted Failed run. */
  lemma LastRunAdvancesOnlyWhenRecorded(srv: Server, local: Status, e: FireEnv)
    requires local.lastRun == srv.status.lastRun
    ensures var (srv', evs) := FireOf(srv, local, e);
      && evs == (if evs == [] then [] else [Recorded(e.finishedAt)])
      && srv'.status.lastRun == (if evs == [] then srv.status.lastRun else Some(e.finishedAt))
      && (evs != [] && (e.instanceMissing || e.promptBlank) ==>
            e.runName in srv'.runs && srv'.runs[e.runName] == Failed)
  {
  }

  /** After a recorded fire that did run, the TaskRun shows its outcome exactly when its own finish patch landed. */
  lemma RunPhaseAfterRecordedFire(srv: Server, local: Status, e: FireEnv)
    requires FireOf(srv, local, e).1 != [] && !e.instanceMissing && !e.promptBlank
    ensures e.runName in FireOf(srv, local, e).0.runs
    ensures FireOf(srv, local, e).0.runs[e.runName] == (if e.runErr then Failed else Completed) <==> e.runFinishOk
  {
  }

  predicate FiresManually(evs: seq<Event>) {
    evs != [] && evs[0].Fired? && !evs[0].cron
  }

  lemma FireOnlyRecords(srv: Server, local: Status, e: FireEnv)
    ensures FireOf(srv, local, e).0.manual == srv.manual
  {
  }

  /**
    After a manual run, and with nothing requested since, the next reconcile runs it
    again exactly when the clearing patch failed. A request made while the first one ran
    makes no difference: the clearing patch takes it away as well.
  */
  lemma ManualRunRepeatsIffNotCleared(srv: Server, creation: nat, e: Env, e': Env)
    requires (srv.manual || e.pressed) && !e'.pressed
    ensures var r := ReconcileOf(srv, creation, e);
      FiresManually(r.1) && (FiresManually(ReconcileOf(r.0, creation, e').1) <==> !e.clearOk)
  {
    FireOnlyRecords(srv, srv.status, e.fire);
  }
}
