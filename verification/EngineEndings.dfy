/** How processes stop: the end absorbs every later event, a timeout changes one row, and a run that
    is not paused stops as completed, aborted or resumable. */
module EngineEndings {
  import opened ProcessTypes
  import opened StepLog
  import opened Engine
  import opened EngineHistory
  import opened EngineInvariant
  import opened EngineTheorems

  // ---- the end ----------------------------------------------------------------------------------

  /** The process is completed or aborted, and the process table says so. */
  ghost predicate Ended(db: Db) {
    && db.rows != [] && db.rows[|db.rows| - 1].status.Ends()
    && db.proc.lastStatus == Overall(db.rows[|db.rows| - 1].status)
  }

  /** Even a resume that nobody refused would call no step and write no row; all it does is to set the
      process to running. */
  lemma EndedRunsNothing(env: Env, wf: Workflow, user: string, merged: State, db: Db)
    requires Ended(db)
    ensures ResumeRun(env, wf, user, merged, db) == SetStatus(db, Running)
  {
    RecoverEnded(|wf.steps|, db.rows);
  }

  lemma EndedRefuses(env: Env, wf: Workflow, ev: Event, db: Db)
    requires Ended(db) && (ev.UserAbort? ==> db.proc.lastStatus == Completed)
    ensures Happen(env, wf, ev, db) == db
  {
    RecoverEnded(|wf.steps|, db.rows);
  }

  /** Once a process has ended, no event calls a step, writes a row or changes its status, except that a user may
      abort an aborted process again. No assumption is made about the steps. */
  lemma {:induction false} TheEndAbsorbs(env: Env, wf: Workflow, events: seq<Event>, db: Db)
    requires Ended(db)
    requires forall ev | ev in events :: ev.UserAbort? ==> db.proc.lastStatus == Completed
    ensures
      var d := History(env, wf, events, db);
      d.rows == db.rows && d.proc == db.proc && d.calls == db.calls
  {
    if events != [] {
      var n := |events| - 1;
      assert events[n] in events;
      forall ev | ev in events[..n]
        ensures ev in events
      {
      }
      TheEndAbsorbs(env, wf, events[..n], db);
      EndedRefuses(env, wf, events[n], Later(History(env, wf, events[..n], db), events[n].later));
    }
  }

  /** Nor does a second abort call a step. */
  lemma AbortedAgain(env: Env, wf: Workflow, ev: Event, db: Db)
    requires Ended(db)
    ensures
      var d := Happen(env, wf, ev, db);
      Ended(d) && d.calls == db.calls && d.proc.lastStatus == db.proc.lastStatus
  {
    hide Logged;
    if ev.UserAbort? && db.proc.lastStatus == Aborted {
      RecoverEnded(|wf.steps|, db.rows);
      var p := Recover(|wf.steps|, db.rows).0;
      LoggedReports(env.norm, db, ev.user, StepInfo("User Aborted", Nobody), p.Aborting());
      LoggedKeepsCalls(env.norm, db, ev.user, StepInfo("User Aborted", Nobody), p.Aborting());
    } else {
      EndedRefuses(env, wf, ev, db);
    }
  }

  /** Whatever happens to a process that has ended, it stays ended and no step of it is called again. */
  lemma {:induction false} TheEndCallsNothing(env: Env, wf: Workflow, events: seq<Event>, db: Db)
    requires Ended(db)
    ensures
      var d := History(env, wf, events, db);
      Ended(d) && d.calls == db.calls && d.proc.lastStatus == db.proc.lastStatus
  {
    if events != [] {
      var n := |events| - 1;
      TheEndCallsNothing(env, wf, events[..n], db);
      AbortedAgain(env, wf, events[n], Later(History(env, wf, events[..n], db), events[n].later));
    }
  }

  // ---- timeouts ---------------------------------------------------------------------------------

  lemma TimeoutLogged(norm: Norm, reason: string, s: State, db: Db)
    requires db.rows != []
    ensures
      var n := |db.rows| - 1;
      var failed := Process(Failed, s + map[ErrorText := Text(reason), ReplaceLastState := Flag(true)]);
      var d := Logged(norm, db, SYSTEM_USER, StepInfo(reason, Nobody), failed).0;
      && |d.rows| == |db.rows| && d.rows[..n] == db.rows[..n]
      && d.rows[n].name == db.rows[n].name && d.rows[n].status == Failed
      && CanBeResumed(d.proc.lastStatus)
  {
    var failed := Process(Failed, s + map[ErrorText := Text(reason), ReplaceLastState := Flag(true)]);
    LogReplaces(norm, db, SYSTEM_USER, StepInfo(reason, Nobody), failed);
    LoggedReports(norm, db, SYSTEM_USER, StepInfo(reason, Nobody), failed);
  }

  /** A timeout rewrites the row of the awaiting step and no other, keeps its name, and leaves the
      program counter where it is; on any other process it does nothing. */
  lemma TimeoutRewritesOneRow(env: Env, wf: Workflow, reason: string, db: Db)
    requires db.rows != []
    ensures
      var n := |db.rows| - 1;
      var cs := ClearedRows(db.rows);
      var d := FailAwaitingWf(env, wf, reason, db);
      if db.rows[n].status != AwaitingCallback then d == db
      else
        && |d.rows| == |db.rows| && d.rows[..n] == db.rows[..n]
        && d.rows[n].name == db.rows[n].name && d.rows[n].status == Failed
        && ClearedRows(d.rows) == cs
        && (cs == [] || cs[|cs| - 1].status != Complete ==>
              Recover(|wf.steps|, d.rows).1 == Recover(|wf.steps|, db.rows).1)
        && CanBeResumed(d.proc.lastStatus)
  {
    hide Logged;
    var n := |db.rows| - 1;
    ClearedAreCleared(db.rows);
    ClearedLast(db.rows);
    if db.rows[n].status == AwaitingCallback {
      TimeoutLogged(env.norm, reason, db.rows[n].state, db);
      ClearedLast(FailAwaitingWf(env, wf, reason, db).rows);
    }
  }

  lemma {:induction false} ClearedAreCleared(rows: seq<Row>)
    ensures forall r | r in ClearedRows(rows) :: r.status.Cleared()
  {
    if rows != [] {
      ClearedAreCleared(rows[..|rows| - 1]);
    }
  }

  // ---- runs that are not paused -----------------------------------------------------------------

  ghost predicate NeverLocked(env: Env) {
    forall midStep: bool, t: nat :: !env.lock(midStep, t)
  }

  /** A loop that is not paused and ends in `done` stops in a variant that does not run on, and the
      process table reports that variant. */
  lemma {:induction false} UnlockedExecStops(env: Env, user: string, steps: seq<Step>, i: nat, p: Process, db: Db)
    requires NeverLocked(env) && i < |steps| && IsDone(steps[|steps| - 1])
    requires p.status.Runs() || Reports(db.proc.lastStatus, p.status)
    ensures
      var r := Exec(env, user, steps, i, p, db);
      !r.0.status.Runs() && Reports(r.1.proc.lastStatus, r.0.status)
    decreases |steps| - i
  {
    hide Logged;
    if p.status.Runs() {
      var (r, db1) := RunStep(env, user, steps[i], p.s + map[StartedAt := Num(db.now)], db);
      LoggedReports(env.norm, db1, user, steps[i].Info(), r);
      var (p2, db2) := Turn(env, user, steps[i], p, db);
      if i + 1 < |steps| {
        UnlockedExecStops(env, user, steps, i + 1, p2, db2);
      }
    }
  }

  predicate Stopped(s: ProcessStatus) {
    s == Completed || s == Aborted || CanBeResumed(s)
  }

  lemma UnlockedRunStops(env: Env, wf: Workflow, user: string, i: nat, p: Process, db: Db)
    requires NeverLocked(env) && GoodWorkflow(wf) && i < |wf.steps|
    requires !p.status.Ends() && (p.status.Halts() ==> i + 1 < |wf.steps|)
    ensures Stopped(RunWf(env, user, wf.steps, i, p, db).1.proc.lastStatus)
  {
    hide Logged, RunStep;
    var next := p.Resuming();
    if !p.status.Halts() {
      UnlockedExecStops(env, user, wf.steps, i, next, db);
    } else {
      var (db', p') := Logged(env.norm, db, user, wf.steps[i].Info(), next);
      LoggedReports(env.norm, db, user, wf.steps[i].Info(), next);
      UnlockedExecStops(env, user, wf.steps, if StepGroup in p.s then i else i + 1, p', db');
    }
  }

  lemma HaltedIsNotLast(env: Env, wf: Workflow, rows: seq<Row>)
    requires GoodWorkflow(wf) && HaltedRows(env, wf, rows)
    ensures |ClearedRows(rows)| + 1 < |wf.steps|
  {
    hide ClearedRows, Trace, GoodStep, GoodInput, Level, IsInit, GroupHaltsAt;
  }

  lemma UnlockedResumeStops(env: Env, wf: Workflow, user: string, merged: State, db: Db)
    requires NeverLocked(env) && GoodWorkflow(wf)
    requires IdleRows(env, wf, db.rows) || HaltedRows(env, wf, db.rows)
    ensures Stopped(ResumeRun(env, wf, user, merged, db).proc.lastStatus)
  {
    var (p, i) := Recover(|wf.steps|, db.rows);
    if IdleRows(env, wf, db.rows) {
      RecoverIdle(env, wf, db.rows);
    } else {
      RecoverHalted(env, wf, db.rows);
      HaltedIsNotLast(env, wf, db.rows);
    }
    UnlockedRunStops(env, wf, user, i, p.(s := merged), SetStatus(db, Running));
  }

  lemma UnlockedEventStops(env: Env, wf: Workflow, ev: Event, db: Db)
    requires GoodEnv(env) && NeverLocked(env) && GoodWorkflow(wf) && GoodDb(env, wf, db)
    requires Stopped(db.proc.lastStatus) && Enabled(wf, ev, db)
    ensures Stopped(Occur(env, wf, ev, db).proc.lastStatus)
  {
    hide Logged, RunWf;
    GoodDbKinds(env, wf, db);
    var p := Recover(|wf.steps|, db.rows).0;
    match ev
    case Resume(user, merged, _) => UnlockedResumeStops(env, wf, user, merged, db);
    case Restart(user, _) =>
    case Callback(_, user, data, merged, _) =>
      RecoverHalted(env, wf, db.rows);
      ReplaceKeeps(env, wf, CallbackState(p.s, data), db);
      UnlockedResumeStops(env, wf, user, merged, ReplaceState(db, CallbackState(p.s, data)));
    case Progress(_, data, _) =>
    case Timeout(reason, _) =>
      LoggedReports(env.norm, db, SYSTEM_USER, StepInfo(reason, Nobody),
                    Process(Failed, p.s + map[ErrorText := Text(reason), ReplaceLastState := Flag(true)]));
    case UserAbort(user, _) =>
      LoggedReports(env.norm, db, user, StepInfo("User Aborted", Nobody), p.Aborting());
  }

  /** Without pauses, a process is completed, aborted or resumable whenever a run of it has stopped. */
  lemma {:induction false} UnlockedLifeStops(env: Env, wf: Workflow, user: string, isTask: bool, events: seq<Event>)
    requires GoodEnv(env) && NeverLocked(env) && GoodWorkflow(wf)
    ensures Stopped(Life(env, wf, user, isTask, events).proc.lastStatus)
  {
    if events == [] {
      UnlockedRunStops(env, wf, user, 0, Process(Success, wf.initial), SetStatus(NewProcess(isTask), Running));
    } else {
      var n := |events| - 1;
      UnlockedLifeStops(env, wf, user, isTask, events[..n]);
      var before := HistoryKeeps(env, wf, user, isTask, events[..n]);
      var db := Later(before, events[n].later);
      if Enabled(wf, events[n], db) {
        UnlockedEventStops(env, wf, events[n], db);
      }
    }
  }
}
