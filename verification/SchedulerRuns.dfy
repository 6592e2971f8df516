/** What the task scheduler (Scheduler) keeps over whole runs of reconciles. */
module SchedulerRuns {
  import opened Common
  import opened Cron
  import opened CronCap
  import opened Scheduler

  /** The clock does not go back, and a run ends after the reconcile that starts it. */
  ghost predicate Clocked(envs: seq<Env>) {
    && (forall i :: 0 <= i < |envs| ==> envs[i].now <= envs[i].fire.finishedAt)
    && (forall i, j :: 0 <= i < j < |envs| ==> envs[i].fire.finishedAt <= envs[j].now)
  }

  ghost function Run(creation: nat, init: Server, envs: seq<Env>): (Server, seq<Event>) {
    if envs == [] then (init, [])
    else
      var before := Run(creation, init, envs[..|envs| - 1]);
      var r := ReconcileOf(before.0, creation, envs[|envs| - 1]);
      (r.0, before.1 + r.1)
  }

  /** Every recorded time is at most LastRunTime; a cron fire is due after what was recorded before it. */
  ghost predicate History(srv: Server, log: seq<Event>) {
    && (forall i :: 0 <= i < |log| && log[i].Recorded? ==> srv.status.lastRun.Some? && log[i].at <= srv.status.lastRun.value)
    && (forall i, j :: 0 <= i < j < |log| && log[i].Recorded? && log[j].Fired? && log[j].cron ==> log[i].at < 60 * log[j].due)
    && (forall i, j :: 0 <= i < j < |log| && log[i].Fired? && log[j].Recorded? ==> 60 * log[i].due <= log[j].at)
  }

  /** All recorded times, and all due times, are in the past of `now`. */
  ghost predicate Past(srv: Server, log: seq<Event>, now: nat) {
    && (srv.status.lastRun.Some? ==> srv.status.lastRun.value <= now)
    && (forall i :: 0 <= i < |log| && log[i].Fired? ==> 60 * log[i].due <= now)
  }

  lemma NextPatchKeepsLastRun(srv: Server, next: Option<nat>, ok: bool)
    ensures var r := PatchNextOf(srv, srv.status, next, ok);
      r.0.status.lastRun == srv.status.lastRun && r.1.lastRun == srv.status.lastRun
  {
  }

  /** The shape of one reconcile's events, and what it does to LastRunTime. */
  lemma ReconcileShape(srv: Server, creation: nat, e: Env)
    ensures var (srv', evs) := ReconcileOf(srv, creation, e);
      && |evs| <= 2
      && (|evs| >= 1 ==> evs[0].Fired? && (evs[0].cron ==> BaseOf(creation, srv.status) < 60 * evs[0].due <= e.now))
      && (|evs| >= 1 && !evs[0].cron ==> 60 * evs[0].due <= e.now)
      && (|evs| == 2 ==> evs[1] == Recorded(e.fire.finishedAt))
      && srv'.status.lastRun == (if |evs| == 2 then Some(e.fire.finishedAt) else srv.status.lastRun)
  {
    if srv.manual || e.pressed {
      LastRunAdvancesOnlyWhenRecorded(srv, srv.status, e.fire);
    } else if e.enabled && e.spec.Expr? {
      var (next, due) := NextDueOf(creation, srv.status, e.spec.cron, e.now);
      NextPatchKeepsLastRun(srv, next, e.nextOk);
      var patched := PatchNextOf(srv, srv.status, next, e.nextOk);
      LastRunAdvancesOnlyWhenRecorded(patched.0, patched.1, e.fire);
    } else {
      NextPatchKeepsLastRun(srv, None, e.nextOk);
    }
  }

  lemma ReconcileHistory(srv: Server, creation: nat, e: Env, log: seq<Event>)
    requires History(srv, log) && Past(srv, log, e.now) && e.now <= e.fire.finishedAt
    ensures var (srv', evs) := ReconcileOf(srv, creation, e); History(srv', log + evs) && Past(srv', log + evs, e.fire.finishedAt)
  {
    ReconcileShape(srv, creation, e);
    var (srv', evs) := ReconcileOf(srv, creation, e);
    var l := log + evs;
    assert forall i :: 0 <= i < |log| ==> l[i] == log[i];
    assert forall i :: |log| <= i < |l| ==> l[i] == evs[i - |log|];
  }

  /** The recorded LastRunTime, if any, is not after the first reconcile. */
  predicate StartsBefore(init: Server, envs: seq<Env>) {
    init.status.lastRun.Some? && envs != [] ==> init.status.lastRun.value <= envs[0].now
  }

  lemma {:induction false} RunHistory(creation: nat, init: Server, envs: seq<Env>, now: nat)
    requires StartsBefore(init, envs) && Clocked(envs) && (init.status.lastRun.Some? ==> init.status.lastRun.value <= now)
    requires forall i :: 0 <= i < |envs| ==> envs[i].fire.finishedAt <= now
    ensures History(Run(creation, init, envs).0, Run(creation, init, envs).1)
    ensures Past(Run(creation, init, envs).0, Run(creation, init, envs).1, now)
  {
    if envs != [] {
      var n := |envs| - 1;
      RunHistory(creation, init, envs[..n], envs[n].now);
      var before := Run(creation, init, envs[..n]);
      ReconcileHistory(before.0, creation, envs[n], before.1);
    }
  }

  /**
    Over any sequence of reconciles with a clock that does not go back: once an
    outcome is recorded, every later cron fire is due strictly after it, and so
    strictly after every occurrence fired before it was recorded.
  */
  lemma RecordedOccurrencesNeverFireAgain(creation: nat, init: Server, envs: seq<Env>, i: nat, r: nat, j: nat)
    requires StartsBefore(init, envs) && Clocked(envs)
    requires var log := Run(creation, init, envs).1;
      i < r < j < |log| && log[i].Fired? && log[r].Recorded? && log[j].Fired? && log[j].cron
    ensures var log := Run(creation, init, envs).1;
      log[r].at < 60 * log[j].due && log[i].due < log[j].due
  {
    if envs != [] {
      RunHistory(creation, init, envs, envs[|envs| - 1].fire.finishedAt);
    }
  }

  /** The cron fire of the least matching minute strictly after `base`. */
  ghost predicate EarliestDue(c: Cron, base: nat, ev: Event) {
    && ev.Fired? && ev.cron && base < 60 * ev.due && Matches(c, ev.due)
    && forall k: nat :: base / 60 < k < ev.due ==> !Matches(c, k)
  }

  /**
    No matching minute after the recorded LastRunTime is skipped: a cron
    reconcile fires exactly when one has come, for the earliest of them.
  */
  lemma FiresForTheEarliestDueMinute(srv: Server, creation: nat, e: Env)
    requires !srv.manual && !e.pressed && e.enabled && e.spec.Expr?
    ensures var base := BaseOf(creation, srv.status);
      var evs := ReconcileOf(srv, creation, e).1;
      && (evs != [] <==> exists m: nat :: base / 60 < m <= base / 60 + CAP && 60 * m <= e.now && Matches(e.spec.cron, m))
      && (evs != [] ==> EarliestDue(e.spec.cron, base, evs[0]))
  {
    var base := BaseOf(creation, srv.status);
    var next := NextAfterOf(e.spec.cron, base);
    assert IsNextAfter(e.spec.cron, base, next);
    if m: nat :| base / 60 < m <= base / 60 + CAP && 60 * m <= e.now && Matches(e.spec.cron, m) {
      assert next.Some? && next.value <= m;
    }
  }

  /**
    A cron task whose creation time the 366-day cap loses never fires on its
    schedule, although a later minute matches: its base never moves.
  */
  lemma {:induction false} LostScheduleNeverFires(creation: nat, init: Server, c: Cron, envs: seq<Env>)
    requires Loses(c, creation) && init.status.lastRun.None? && !init.manual
    requires forall i :: 0 <= i < |envs| ==> envs[i].spec == Expr(c) && !envs[i].pressed && !envs[i].pressedLate
    ensures Run(creation, init, envs).1 == [] && Run(creation, init, envs).0.status.lastRun.None? && !Run(creation, init, envs).0.manual
  {
    if envs != [] {
      var n := |envs| - 1;
      LostScheduleNeverFires(creation, init, c, envs[..n]);
      ReconcileShape(Run(creation, init, envs[..n]).0, creation, envs[n]);
    }
  }
}
