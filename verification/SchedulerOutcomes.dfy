/**
  What one fire and one reconcile of the task scheduler (Scheduler) leave on the server,
  field by field, for every outcome of every write.
*/
module SchedulerOutcomes {
  import opened Common
  import opened Cron
  import opened Scheduler

  /** The local Task is the server's, but for a NextRunTime whose patch may have failed. */
  predicate Fresh(srv: Server, local: Status) {
    local == srv.status.(nextRun := local.nextRun)
  }

  predicate Skipped(e: FireEnv) {
    e.instanceMissing || e.promptBlank
  }

  /** The TaskRun after a fire: absent if it was not created; a skip's is Failed, a run's tells how it ended, each as far as the patches landed. */
  lemma RunShowsItsEnd(srv: Server, local: Status, e: FireEnv)
    requires e.runName !in srv.runs
    ensures var runs := FireOf(srv, local, e).0.runs;
      && runs.Keys == srv.runs.Keys + (if e.createOk then {e.runName} else {})
      && (forall name :: name in srv.runs ==> runs[name] == srv.runs[name])
      && (e.createOk && e.runFinishOk ==> (runs[e.runName] == Failed <==> Skipped(e) || e.runErr))
      && (e.createOk && e.runFinishOk ==> (runs[e.runName] == Completed <==> !Skipped(e) && !e.runErr))
      && (e.createOk && !e.runFinishOk ==> (runs[e.runName] == Running <==> !Skipped(e) && e.runningOk))
      && (e.createOk && !e.runFinishOk ==> (runs[e.runName] == Created <==> Skipped(e) || !e.runningOk))
  {
  }

  /** The Task records an outcome when its last patch lands: for a skip only after the Failed run was persisted. */
  predicate Records(e: FireEnv) {
    e.createOk && e.taskOk && (Skipped(e) ==> e.runFinishOk)
  }

  /** The Task after a fire: time, status and run of a recorded outcome; the run alone when only the start patch landed; otherwise as it was. */
  lemma TaskShowsTheOutcome(srv: Server, local: Status, e: FireEnv)
    requires Fresh(srv, local)
    ensures var s, s' := srv.status, FireOf(srv, local, e).0.status;
      && s'.nextRun == s.nextRun
      && (Records(e) ==> s'.lastRun == Some(e.finishedAt) && s'.runName == Some(e.runName))
      && (Records(e) ==> s'.lastStatus == Some(if Skipped(e) || e.runErr then Failure else Success))
      && (!Records(e) ==> s'.lastRun == s.lastRun && s'.lastStatus == s.lastStatus)
      && (!Records(e) ==> s'.runName == if e.createOk && !Skipped(e) && e.startOk then Some(e.runName) else s.runName)
  {
  }

  /** What a reconcile of the schedule makes of NextRunTime: cleared for a paused or malformed one, kept for none, the next occurrence otherwise. */
  ghost predicate NextShown(creation: nat, e: Env, before: Status, after: Status) {
    if !e.nextOk || (e.enabled && e.spec.Blank?) then after.nextRun == before.nextRun
    else if !e.enabled || e.spec.Invalid? then after.nextRun == None
    else IsNextAfter(e.spec.cron, if before.lastRun.Some? then before.lastRun.value else creation, after.nextRun)
  }

  /** Only an enabled task with a valid expression fires on its schedule, and every scheduled reconcile shows the next run. */
  lemma ReconcileShowsTheNextRun(srv: Server, creation: nat, e: Env)
    requires !srv.manual && !e.pressed
    ensures var (srv', evs) := ReconcileOf(srv, creation, e);
      && NextShown(creation, e, srv.status, srv'.status)
      && (evs != [] ==> e.enabled && e.spec.Expr?)
      && srv'.manual == e.pressedLate
  {
    if e.enabled && e.spec.Expr? {
      var (next, due) := NextDueOf(creation, srv.status, e.spec.cron, e.now);
      var patched := PatchNextOf(srv, srv.status, next, e.nextOk);
      assert Fresh(patched.0, patched.1);
      TaskShowsTheOutcome(patched.0, patched.1, e.fire);
    }
  }
}
