/** Restarts do not show: a history in which a process is paused and restarted between its resumes and
    callbacks ends with the same log as the history without pauses and restarts. */
module EngineRestarts {
  import opened ProcessTypes
  import opened StepLog
  import opened Engine
  import opened EngineHistory
  import opened EngineInvariant
  import opened EngineTheorems
  import opened EngineTransparency
  import EngineCalls
  import EngineGroups

  // ---- what depends on the log --------------------------------------------------------------------

  lemma {:induction false} SameCleared(rs: seq<Row>, qs: seq<Row>)
    requires SameRows(rs, qs)
    ensures SameRows(ClearedRows(rs), ClearedRows(qs))
    ensures forall i | 0 <= i < |ClearedRows(rs)| :: ClearedRows(rs)[i].state == ClearedRows(qs)[i].state
    decreases |rs|
  {
    if rs != [] {
      var n := |rs| - 1;
      assert SameRow(rs[n], qs[n]);
      assert forall i | 0 <= i < n :: rs[..n][i] == rs[i] && qs[..n][i] == qs[i];
      SameCleared(rs[..n], qs[..n]);
    }
  }

  /** Logs that are the same recover to the same process and the same step. */
  lemma RecoverSame(size: nat, rs: seq<Row>, qs: seq<Row>)
    requires SameRows(rs, qs)
    ensures Recover(size, rs) == Recover(size, qs)
  {
    hide ClearedRows;
    SameCleared(rs, qs);
    var cs, ds := ClearedRows(rs), ClearedRows(qs);
    if rs != [] {
      assert SameRow(rs[|rs| - 1], qs[|rs| - 1]);
    }
    if cs != [] {
      assert SameRow(cs[|cs| - 1], ds[|cs| - 1]);
    }
  }

  lemma EnabledSame(wf: Workflow, ev: Event, d: Db, e: Db)
    requires SameDb(d, e)
    ensures Enabled(wf, ev, d) <==> Enabled(wf, ev, e)
  {
    hide Recover;
    RecoverSame(|wf.steps|, d.rows, e.rows);
  }

  /** The same data stored in the last rows. */
  lemma ReplaceSame(s: State, d: Db, e: Db)
    requires SameDb(d, e) && d.rows != [] && !d.rows[|d.rows| - 1].status.Errs()
    ensures SameDb(ReplaceState(d, s), ReplaceState(e, s))
  {
    assert SameRow(d.rows[|d.rows| - 1], e.rows[|d.rows| - 1]);
  }

  // ---- resuming -----------------------------------------------------------------------------------

  /** The turn of a group that goes on at a later leaf. */
  lemma ResumedTurnSame(env: Env, free: Env, u: string, d: Db, v: string, e: Db, g: Step, p: Process)
    requires SameEngine(env, free) && g.Group? && SteadyStep(g)
    requires SameDb(d, e) && SameOwner(u, d.rows, v, e.rows) && 0 < GroupStart(g, p.s)
    ensures
      var (p2, d2) := Turn(env, u, g, p, d);
      var (q2, e2) := Turn(free, v, g, p, e);
      SameDb(d2, e2) && p2.status == q2.status && (!p2.status.Errs() ==> p2 == q2)
  {
    hide Logged, ExecLeaves, SameOwner, SameRows;
    var s, t := p.s + map[StartedAt := Num(d.now)], p.s + map[StartedAt := Num(e.now)];
    assert s - {StartedAt} == p.s - {StartedAt} == t - {StartedAt};
    var k := GroupStart(g, p.s);
    assert GroupStart(g, s) == k && GroupStart(g, t) == k;
    var p0, q0 := Process(Success, s), Process(Success, t);
    LeavesSame(env, free, u, d, v, e, g, k, p0, q0);
    var (p1, d1) := ExecLeaves(env, u, g, k, p0, d);
    var (q1, e1) := ExecLeaves(free, v, g, k, q0, e);
    var x := map[ReplaceLastState := Flag(true), StartedAt := Num(d.now)];
    var y := map[ReplaceLastState := Flag(true), StartedAt := Num(e.now)];
    assert x - {StartedAt} == y - {StartedAt};
    WithSame(p1, q1, x, y);
    LoggedSame(env.norm, u, d1, v, e1, g.Info(), p1.With(x), q1.With(y));
  }

  /** A row that runs on was logged for step `i`: the loop may be paused after it. */
  lemma PausedAfterStep(env: Env, wf: Workflow, i: nat, bs: seq<Row>, p: Process, db: Db)
    requires GoodWorkflow(wf) && i < |wf.steps| && StepLogged(env, wf, i, bs, p, db) && Trace(env, wf, ClearedRows(bs))
    ensures if p.status.Runs() then Paused(env, wf, i + 1, p, db) else db.proc.lastStatus != Running
  {
    hide StepPasses, HaltedIn, ProducedBy, GoodStep, GoodInput;
    AfterStep(env, wf, i, bs, p, db);
    ClearedLast(db.rows);
  }

  /** A resume of a halted process, as the run it makes. */
  lemma ResumeIsExec(env: Env, wf: Workflow, user: string, merged: State, db: Db, i: nat)
    requires var r := Recover(|wf.steps|, db.rows); r.0.status.Halts() && r.1 == i < |wf.steps|
    ensures
      var (d1, p1) := Logged(env.norm, SetStatus(db, Running), user, wf.steps[i].Info(), Process(Success, merged));
      ResumeRun(env, wf, user, merged, db)
      == Exec(env, user, wf.steps, if StepGroup in merged then i else i + 1, p1, d1).1
  {
    hide Logged, Exec, Recover;
  }

  /** The resume is logged in both. */
  lemma ResumeLoggedSame(env: Env, wf: Workflow, u: string, merged: State, d: Db, v: string, e: Db)
    requires Transparent(env) && GoodWorkflow(wf) && HaltedRows(env, wf, d.rows) && SameDb(d, e)
    requires wf.input(d.rows[|d.rows| - 1].state, merged)
    ensures
      var step := wf.steps[|ClearedRows(d.rows)|];
      var (d1, p1) := Logged(env.norm, d, u, step.Info(), Process(Success, merged));
      var (e1, q1) := Logged(env.norm, e, v, step.Info(), Process(Success, merged));
      && ResumeAppended(env, step, merged, d.rows, p1, d1)
      && SameDb(d1, e1) && SameOwner(u, d1.rows, v, e1.rows) && p1 == q1
      && HaltedIn(env, wf, step, StateBefore(wf, ClearedRows(d.rows), |ClearedRows(d.rows)|), merged)
      && (StepGroup in merged <==> step.Group?)
  {
    hide Logged, SameDb, HaltedIn, ProducedBy, GoodStep;
    var cs := ClearedRows(d.rows);
    var step, s := wf.steps[|cs|], StateBefore(wf, cs, |cs|);
    HaltedMerges(env, wf, step, s, d.rows[|d.rows| - 1].state, merged);
    HaltedPlace(env, wf, step, s, merged);
    ResumeLogged(env, u, step, merged, d);
    LoggedSame(env.norm, u, d, v, e, step.Info(), Process(Success, merged), Process(Success, merged));
  }

  /** A halted process is resumed in both: the paused engine, once it is unlocked, leaves the log of the
      free one. */
  lemma ResumeSame(env: Env, wf: Workflow, u: string, merged: State, d: Db, v: string, e: Db, f: string)
    requires Transparent(env) && SteadyWorkflow(wf) && HaltedRows(env, wf, d.rows) && SameDb(d, e)
    requires wf.input(d.rows[|d.rows| - 1].state, merged)
    ensures
      var d' := ResumeRun(env, wf, u, merged, d);
      AtPause(env, wf, d') && SameDb(Finish(env, wf, f, d'), ResumeRun(Free(env), wf, v, merged, e))
  {
    hide Logged, Exec, SameDb, HaltedIn, ProducedBy, GoodStep, Finish, AtPause, Recover, ResumeRun, SteadyStep,
      ResumeAppended;
    var i := |ClearedRows(d.rows)|;
    var step := wf.steps[i];
    RecoverHalted(env, wf, d.rows);
    RecoverSameDb(|wf.steps|, d, e);
    ResumeIsExec(env, wf, u, merged, d, i);
    ResumeIsExec(Free(env), wf, v, merged, e, i);
    var d0, e0 := SetStatus(d, Running), SetStatus(e, Running);
    SameStatus(d, e);
    ResumeLoggedSame(env, wf, u, merged, d0, v, e0);
    var (d1, p1) := Logged(env.norm, d0, u, step.Info(), Process(Success, merged));
    var (e1, q1) := Logged(env.norm, e0, v, step.Info(), Process(Success, merged));
    if step.Single? {
      ResumedSingle(env, wf, merged, d.rows, i, p1, d1);
      PausedOnResume(env, wf, step, merged, d.rows, i, p1, d1);
      ExecPauses(env, wf, u, i + 1, p1, d1);
      PauseIsInvisible(env, wf, u, d1, f, v, e1, i + 1, p1, q1);
    } else {
      ResumedGroupSame(env, wf, u, merged, d0, v, e0, f);
    }
  }

  lemma RecoverSameDb(size: nat, d: Db, e: Db)
    requires SameDb(d, e)
    ensures Recover(size, d.rows) == Recover(size, e.rows)
  {
    RecoverSame(size, d.rows, e.rows);
  }

  lemma SameStatus(d: Db, e: Db)
    requires SameDb(d, e)
    ensures SameDb(SetStatus(d, Running), SetStatus(e, Running))
  {
  }

  lemma PausedOnResume(env: Env, wf: Workflow, step: Step, merged: State, bs: seq<Row>, i: nat, p: Process, db: Db)
    requires Ready(env, wf, i + 1, p, db) && ResumeAppended(env, step, merged, bs, p, db)
    ensures Paused(env, wf, i + 1, p, db)
  {
    hide ProducedBy;
    ClearedLast(db.rows);
  }

  lemma ResumedGroupSame(env: Env, wf: Workflow, u: string, merged: State, d: Db, v: string, e: Db, f: string)
    requires Transparent(env) && SteadyWorkflow(wf) && HaltedRows(env, wf, d.rows) && SameDb(d, e)
    requires wf.input(d.rows[|d.rows| - 1].state, merged) && wf.steps[|ClearedRows(d.rows)|].Group?
    ensures
      var i := |ClearedRows(d.rows)|;
      var (d1, p1) := Logged(env.norm, d, u, wf.steps[i].Info(), Process(Success, merged));
      var (e1, q1) := Logged(env.norm, e, v, wf.steps[i].Info(), Process(Success, merged));
      var d' := Exec(env, u, wf.steps, i, p1, d1).1;
      && AtPause(env, wf, d')
      && SameDb(Finish(env, wf, f, d'), Exec(Free(env), v, wf.steps, i, q1, e1).1)
  {
    hide Logged, Turn, SameDb, SameOwner, HaltedIn, ProducedBy, GoodStep, Recover, RestartRun, SteadyStep, StepLogged,
      AtLeaf, GroupStart, ResumeAppended;
    var i := |ClearedRows(d.rows)|;
    var g := wf.steps[i];
    ResumeLoggedSame(env, wf, u, merged, d, v, e);
    var k := EngineGroups.ResumedAtLeaf(env, wf, u, merged, d);
    var (d1, p1) := Logged(env.norm, d, u, g.Info(), Process(Success, merged));
    var (e1, q1) := Logged(env.norm, e, v, g.Info(), Process(Success, merged));
    LaterLeaf(g, p1.s);
    ResumedTurnSame(env, Free(env), u, d1, v, e1, g, p1);
    var p2, d2 := EngineCalls.ResumedGroupLogged(env, wf, u, merged, d);
    var (q2, e2) := Turn(Free(env), v, g, q1, e1);
    PausedAfterStep(env, wf, i, d.rows, p2, d2);
    if p2.status.Runs() {
      ExecPauses(env, wf, u, i + 1, p2, d2);
      PauseIsInvisible(env, wf, u, d2, f, v, e2, i + 1, p2, q2);
    }
  }

  lemma LaterLeaf(g: Step, s: State)
    requires g.Group? && SubStep in s
    ensures 0 < GroupStart(g, s)
  {
  }

  // ---- the other events ---------------------------------------------------------------------------

  /** An error with the replace key, on top of a row that is the same and has another name than the step: no
      retries are counted, whoever wrote the row. */
  lemma ReplacedSame(norm: Norm, user: string, step: StepInfo, p: Process, d: Db, e: Db)
    requires SameDb(d, e) && d.rows != [] && d.rows[|d.rows| - 1].name != Text(step.name)
    requires Truthy(Get(p.s, ReplaceLastState))
    ensures SameDb(Logged(norm, d, user, step, p).0, Logged(norm, e, user, step, p).0)
  {
    hide UpdatedProc, Cleaned;
    var n := |d.rows| - 1;
    assert SameRow(d.rows[n], e.rows[n]);
    assert Truthy(Get(Untraced(p), ReplaceLastState));
  }

  /** Both callbacks time out. */
  lemma TimeoutSame(env: Env, wf: Workflow, reason: string, d: Db, e: Db)
    requires GoodDb(env, wf, d) && SameDb(d, e)
    requires d.rows != [] ==> d.rows[|d.rows| - 1].name != Text(reason)
    ensures
      var d' := FailAwaitingWf(env, wf, reason, d);
      && SameDb(d', FailAwaitingWf(Free(env), wf, reason, e))
      && (d.proc.lastStatus != Running ==> d'.proc.lastStatus != Running)
  {
    hide GoodDb, Logged, SameDb, Recover, Trace, HaltedIn;
    RecoverSameDb(|wf.steps|, d, e);
    EngineCalls.AwaitingIsLast(env, wf, d);
    var p := Recover(|wf.steps|, d.rows).0;
    if p.status == AwaitingCallback {
      var failed := Process(Failed, p.s + map[ErrorText := Text(reason), ReplaceLastState := Flag(true)]);
      ReplacedSame(env.norm, SYSTEM_USER, StepInfo(reason, Nobody), failed, d, e);
      LoggedReports(env.norm, d, SYSTEM_USER, StepInfo(reason, Nobody), failed);
    }
  }

  /** Both are aborted. */
  lemma AbortSame(env: Env, wf: Workflow, user: string, d: Db, e: Db)
    requires Transparent(env) && GoodWorkflow(wf) && GoodDb(env, wf, d) && SameDb(d, e)
    ensures
      var d' := AbortWf(env, wf, user, d);
      && SameDb(d', AbortWf(Free(env), wf, user, e))
      && (d.proc.lastStatus != Running ==> d'.proc.lastStatus != Running)
  {
    hide GoodDb, Logged, SameDb;
    RecoverSameDb(|wf.steps|, d, e);
    var p := Recover(|wf.steps|, d.rows).0;
    var k := RecoversQuietly(env, wf, d);
    if p.status != Complete {
      var step := StepInfo("User Aborted", Nobody);
      LoggedSame(env.norm, user, d, user, e, step, p.Aborting(), p.Aborting());
      LoggedReports(env.norm, d, user, step, p.Aborting());
    }
  }

  /** A process that has stopped, and not with a failure, waits in a step when it can be resumed. */
  lemma StoppedWaits(env: Env, wf: Workflow, db: Db)
    requires GoodDb(env, wf, db) && !EngineCalls.Failing(db)
    requires db.proc.lastStatus != Running && CanBeResumed(db.proc.lastStatus)
    ensures HaltedRows(env, wf, db.rows)
  {
    hide Trace, HaltedIn, EndsAfter, ClearedRows;
  }

  // ---- retries ------------------------------------------------------------------------------------

  /** A retry was paused before it did anything: the process is running again, and its last row still fails. */
  ghost predicate RetryWaits(db: Db) {
    db.proc.lastStatus == Running && EngineCalls.Failing(db)
  }

  /** The process has stopped, or it was paused: between two steps, or at the first check of a retry. */
  ghost predicate Resting(env: Env, wf: Workflow, db: Db) {
    RetryWaits(db) || AtPause(env, wf, db)
  }

  /** Both users, or none of them, wrote the failing row on which a retry waits. */
  ghost predicate Accepts(u: string, db: Db, f: string) {
    RetryWaits(db) ==> (db.rows[|db.rows| - 1].createdBy == u <==> db.rows[|db.rows| - 1].createdBy == f)
  }

  lemma FailedIsIdle(env: Env, wf: Workflow, db: Db)
    requires GoodDb(env, wf, db) && EngineCalls.Failing(db)
    ensures IdleRows(env, wf, db.rows)
  {
    hide Trace, HaltedIn, EndsAfter, ClearedRows;
  }

  /** A resume of a process that stands between two steps, as the run it makes. */
  lemma IdleIsExec(env: Env, wf: Workflow, user: string, merged: State, db: Db)
    requires Recover(|wf.steps|, db.rows).0.status.Runs()
    ensures
      ResumeRun(env, wf, user, merged, db)
      == Exec(env, user, wf.steps, Recover(|wf.steps|, db.rows).1, Process(Success, merged), SetStatus(db, Running)).1
  {
    hide Exec, Recover;
  }

  /** Such a run may begin. */
  lemma IdleIsReady(env: Env, wf: Workflow, merged: State, db: Db)
    requires GoodWorkflow(wf) && IdleRows(env, wf, db.rows) && db.rows != [] && MergedFrom(wf, db.rows, merged)
    ensures
      var r := Recover(|wf.steps|, db.rows);
      r.0.status.Runs() && Ready(env, wf, r.1, Process(Success, merged), SetStatus(db, Running)) && SubStep !in merged
  {
    hide Logged, ProducedBy, GoodStep;
    var cs := ClearedRows(db.rows);
    RecoverIdle(env, wf, db.rows);
    LevelBefore(env, wf, cs, |cs|);
    assert SamePlace(StateBefore(wf, cs, |cs|), merged);
  }

  /** The restart of a process that waits to retry goes on with the state that recovery gives. */
  lemma WaitingRestart(env: Env, wf: Workflow, user: string, db: Db)
    requires GoodWorkflow(wf) && IdleRows(env, wf, db.rows) && RetryWaits(db)
    ensures
      var (s, i) := Recover(|wf.steps|, db.rows);
      var p := Process(Success, s.s);
      && Ready(env, wf, i, p, db) && SubStep !in p.s
      && RestartRun(env, wf, user, db) == Exec(env, user, wf.steps, i, p, db).1
      && RestartRun(Free(env), wf, user, db) == Exec(Free(env), user, wf.steps, i, p, db).1
  {
    hide Exec, IdleRows, Ready, Recover, GoodStep;
    var s := Recover(|wf.steps|, db.rows).0.s;
    var d := SetStatus(db, Resumed);
    assert SetStatus(d, Running) == db;
    assert wf.input(s, s);
    IdleIsReady(env, wf, s, d);
    IdleIsExec(env, wf, user, s, d);
    IdleIsExec(Free(env), wf, user, s, d);
  }

  /** The turns of the step that is retried leave the same log. */
  lemma RetryTurn(env: Env, wf: Workflow, u: string, d: Db, v: string, e: Db, i: nat, p: Process, q: Process)
    returns (p2: Process, d2: Db, q2: Process, e2: Db)
    requires Transparent(env) && SteadyWorkflow(wf) && Ready(env, wf, i, p, d)
    requires SameDb(d, e) && p.s == q.s && SubStep !in q.s && FoldsSame(u, d, v, e)
    ensures (p2, d2) == Turn(env, u, wf.steps[i], p, d) == Turn(Free(env), u, wf.steps[i], p, d)
    ensures (q2, e2) == Turn(Free(env), v, wf.steps[i], q, e)
    ensures SameDb(d2, e2) && p2.status == q2.status && (!p2.status.Errs() ==> p2 == q2)
    ensures if p2.status.Runs() then Paused(env, wf, i + 1, p2, d2) else d2.proc.lastStatus != Running
  {
    hide Turn, SameDb, FoldsSame, StepLogged;
    var t, t' := Turn(env, u, wf.steps[i], p, d), Turn(Free(env), v, wf.steps[i], q, e);
    p2, d2, q2, e2 := t.0, t.1, t'.0, t'.1;
    TurnFree(env, u, wf.steps[i], p, d);
    TurnSame(env, Free(env), u, d, v, e, wf.steps[i], p, q);
    var bs, _, _ := StepTurn(env, wf, u, i, p, d);
    PausedAfterStep(env, wf, i, bs, p2, d2);
  }

  /** A retry whose first check sees no pause. */
  lemma RetryRuns(env: Env, wf: Workflow, u: string, d: Db, f: string, v: string, e: Db, i: nat, p: Process, q: Process)
    requires Transparent(env) && SteadyWorkflow(wf) && Ready(env, wf, i, p, d) && !env.lock(false, d.now)
    requires SameDb(d, e) && q.status.Runs() && p.s == q.s && SubStep !in q.s && FoldsSame(u, d, v, e)
    ensures
      var d' := Exec(env, u, wf.steps, i, p, d).1;
      && AtPause(env, wf, d') && !RetryWaits(d')
      && SameDb(Finish(env, wf, f, d'), Exec(Free(env), v, wf.steps, i, q, e).1)
  {
    hide SameDb, Turn, RestartRun, FoldsSame;
    var p2, d2, q2, e2 := RetryTurn(env, wf, u, d, v, e, i, p, q);
    if p2.status.Runs() {
      ExecPauses(env, wf, u, i + 1, p2, d2);
      PauseIsInvisible(env, wf, u, d2, f, v, e2, i + 1, p2, q2);
    }
  }

  /** Two retries that are not paused and differ only in when and by whom they are made. */
  lemma RetryFree(env: Env, wf: Workflow, u: string, d: Db, v: string, e: Db, i: nat, p: Process, q: Process)
    requires Transparent(env) && SteadyWorkflow(wf) && Ready(env, wf, i, p, d)
    requires SameDb(d, e) && q.status.Runs() && p.s == q.s && SubStep !in q.s && FoldsSame(u, d, v, e)
    ensures SameDb(Exec(Free(env), u, wf.steps, i, p, d).1, Exec(Free(env), v, wf.steps, i, q, e).1)
  {
    hide SameDb, Turn, FoldsSame;
    var p2, d2, q2, e2 := RetryTurn(env, wf, u, d, v, e, i, p, q);
    if p2.status.Runs() {
      ExecSame(env, wf, u, d2, v, e2, i + 1, p2, q2);
    }
  }

  /** A failed process is retried in both. When the paused engine sees the pause at once, the retry has no new
      input, and the user who finishes it is accepted. */
  lemma RetrySame(env: Env, wf: Workflow, u: string, merged: State, d: Db, e: Db, f: string)
    requires Transparent(env) && SteadyWorkflow(wf) && GoodDb(env, wf, d) && EngineCalls.Failing(d) && SameDb(d, e)
    requires MergedFrom(wf, d.rows, merged) && SameOwner(u, d.rows, u, e.rows)
    requires env.lock(false, d.now) ==> merged == Recover(|wf.steps|, d.rows).0.s
    requires Accepts(u, ResumeRun(env, wf, u, merged, d), f)
    ensures
      var d' := ResumeRun(env, wf, u, merged, d);
      Resting(env, wf, d') && SameDb(Finish(env, wf, f, d'), ResumeRun(Free(env), wf, u, merged, e))
  {
    hide SameDb, Turn, RestartRun, Recover, GoodDb, Ready, Paused, IdleRows, SameOwner;
    var i := Recover(|wf.steps|, d.rows).1;
    var p := Process(Success, merged);
    var d0, e0 := SetStatus(d, Running), SetStatus(e, Running);
    FailedIsIdle(env, wf, d);
    RecoverSameDb(|wf.steps|, d, e);
    SameStatus(d, e);
    IdleIsReady(env, wf, merged, d);
    IdleIsExec(env, wf, u, merged, d);
    IdleIsExec(Free(env), wf, u, merged, e);
    if env.lock(false, d.now) {
      LockedExec(env, u, wf.steps, i, p, d0);
      WaitingRestart(env, wf, f, d0);
      Accepted(u, d0, f, e0);
      RetryFree(env, wf, f, d0, u, e0, i, p, p);
    } else {
      SameWriters(u, d0, u, e0);
      RetryRuns(env, wf, u, d0, f, u, e0, i, p, p);
    }
  }

  lemma LockedExec(env: Env, user: string, steps: seq<Step>, i: nat, p: Process, db: Db)
    requires i <= |steps| && SubStep !in p.s && env.lock(false, db.now)
    ensures Exec(env, user, steps, i, p, db) == (p, db)
  {
  }

  lemma SameWriters(u: string, d: Db, v: string, e: Db)
    requires SameOwner(u, d.rows, v, e.rows)
    ensures FoldsSame(u, d, v, e)
  {
  }

  lemma Accepted(u: string, d: Db, f: string, e: Db)
    requires RetryWaits(d) && Accepts(u, d, f) && SameOwner(u, d.rows, u, e.rows) && SameDb(d, e)
    ensures FoldsSame(f, d, u, e)
  {
  }

  // ---- every event --------------------------------------------------------------------------------

  /** What an event must find so that it does the same in both: restarts are made by a user who is accepted for
      the retry that waits, if one does. Any other event finds that the process has stopped. A failed process is
      retried by a user who wrote both failing rows or none, and without new input when the engine is paused. The
      reason of a timeout is not the name of a step. */
  ghost predicate Meets(env: Env, wf: Workflow, runner: string, ev: Event, d: Db, e: Db) {
    match ev
    case Restart(user, _) => Accepts(runner, d, user)
    case Resume(user, merged, _) =>
      && d.proc.lastStatus != Running
      && (EngineCalls.Failing(d) ==>
            && SameOwner(user, d.rows, user, e.rows)
            && (env.lock(false, d.now) ==> merged == Recover(|wf.steps|, d.rows).0.s))
    case Timeout(reason, _) =>
      d.proc.lastStatus != Running && (d.rows != [] ==> d.rows[|d.rows| - 1].name != Text(reason))
    case _ => d.proc.lastStatus != Running
  }

  /** The user of the run that an event starts. */
  function RunnerOf(runner: string, ev: Event): string {
    match ev
    case Resume(user, _, _) => user
    case Callback(_, user, _, _, _) => user
    case _ => runner
  }

  /** Any event but a restart. */
  lemma EventSame(env: Env, wf: Workflow, runner: string, ev: Event, d: Db, e: Db, f: string)
    requires Transparent(env) && SteadyWorkflow(wf) && GoodDb(env, wf, d) && SameDb(d, e)
    requires !ev.Restart? && Meets(env, wf, runner, ev, d, e)
    requires Accepts(RunnerOf(runner, ev), Happen(env, wf, ev, d), f)
    ensures
      var d' := Happen(env, wf, ev, d);
      Resting(env, wf, d') && SameDb(Finish(env, wf, f, d'), Happen(Free(env), wf, ev, e))
  {
    hide SameDb, Recover, ResumeRun, FailAwaitingWf, AbortWf, Paused, GoodRows, Synced, SameOwner, Accepts;
    EnabledSame(wf, ev, d, e);
    RecoverSameDb(|wf.steps|, d, e);
    GoodDbKinds(env, wf, d);
    if Enabled(wf, ev, d) {
      match ev
      case Resume(user, merged, _) =>
        if EngineCalls.Failing(d) {
          RetrySame(env, wf, user, merged, d, e, f);
        } else {
          StoppedWaits(env, wf, d);
          RecoverHalted(env, wf, d.rows);
          ResumeSame(env, wf, user, merged, d, user, e, f);
        }
      case Callback(_, user, data, merged, _) =>
        RecoverHalted(env, wf, d.rows);
        var s := CallbackState(d.rows[|d.rows| - 1].state, data);
        ReplaceSame(s, d, e);
        ReplaceKeeps(env, wf, s, d);
        ResumeSame(env, wf, user, merged, ReplaceState(d, s), user, ReplaceState(e, s), f);
      case Progress(_, data, _) =>
        RecoverHalted(env, wf, d.rows);
        ReplaceSame(ProgressState(d.rows[|d.rows| - 1].state, data), d, e);
      case Timeout(reason, _) => TimeoutSame(env, wf, reason, d, e);
      case UserAbort(user, _) => AbortSame(env, wf, user, d, e);
    }
  }

  /** One more pause and restart of a process that waits to retry does not show. */
  lemma WaitingIsInvisible(env: Env, wf: Workflow, runner: string, u: string, db: Db, n: nat, f: string)
    requires Transparent(env) && SteadyWorkflow(wf) && IdleRows(env, wf, db.rows) && RetryWaits(db)
    requires Accepts(runner, db, u) && Accepts(runner, RestartRun(env, wf, u, Later(db, n)), f)
    ensures
      var d := RestartRun(env, wf, u, Later(db, n));
      Resting(env, wf, d) && SameDb(Finish(env, wf, f, d), Finish(env, wf, u, db))
  {
    hide SameDb, Exec, RestartRun, Recover, Ready, IdleRows, Paused;
    var d := Later(db, n);
    var (r, i) := Recover(|wf.steps|, db.rows);
    var p := Process(Success, r.s);
    SameDbNow(db, n);
    WaitingRestart(env, wf, u, d);
    WaitingRestart(env, wf, u, db);
    WaitingRestart(env, wf, f, d);
    if env.lock(false, d.now) {
      LockedExec(env, u, wf.steps, i, p, d);
      Accepted(u, d, f, db);
      RetryFree(env, wf, f, d, u, db, i, p, p);
    } else {
      SameWriters(u, d, u, db);
      RetryRuns(env, wf, u, d, f, u, db, i, p, p);
    }
  }

  // ---- the theorem --------------------------------------------------------------------------------

  /** The events without the restarts. */
  function WithoutRestarts(events: seq<Event>): seq<Event> {
    if events == [] then []
    else
      var n := |events| - 1;
      WithoutRestarts(events[..n]) + if events[n].Restart? then [] else [events[n]]
  }

  /** The user of the last run that was started, restarts aside. */
  function Runner(user: string, events: seq<Event>): string {
    if events == [] then user
    else
      var n := |events| - 1;
      RunnerOf(Runner(user, events[..n]), events[n])
  }

  /** Every event meets what it must find. */
  ghost predicate Orderly(env: Env, wf: Workflow, user: string, isTask: bool, events: seq<Event>) {
    events == [] ||
      var n := |events| - 1;
      var d := Life(env, wf, user, isTask, events[..n]);
      var e := Life(Free(env), wf, user, isTask, WithoutRestarts(events[..n]));
      && Orderly(env, wf, user, isTask, events[..n])
      && Meets(env, wf, Runner(user, events[..n]), events[n], Later(d, events[n].later), Later(e, events[n].later))
  }

  lemma SameLater(d: Db, e: Db, n: nat)
    requires SameDb(d, e)
    ensures SameDb(Later(d, n), Later(e, n))
  {
  }

  lemma LaterIsGood(env: Env, wf: Workflow, db: Db, ticks: nat)
    requires GoodDb(env, wf, db)
    ensures GoodDb(env, wf, Later(db, ticks))
  {
  }

  lemma LifeOfNone(env: Env, wf: Workflow, user: string, isTask: bool)
    ensures Life(env, wf, user, isTask, []) == Start(env, wf, user, NewProcess(isTask))
  {
  }

  lemma LifeOneMore(env: Env, wf: Workflow, user: string, isTask: bool, events: seq<Event>, ev: Event)
    ensures Life(env, wf, user, isTask, events + [ev])
         == Happen(env, wf, ev, Later(Life(env, wf, user, isTask, events), ev.later))
  {
    hide Happen, Start;
    assert (events + [ev])[..|events|] == events;
  }

  lemma OtherEventIsSame(env: Env, wf: Workflow, user: string, isTask: bool, events: seq<Event>, ev: Event,
                         fewer: seq<Event>, runner: string, f: string)
    requires Transparent(env) && SteadyWorkflow(wf) && !ev.Restart?
    requires
      var d := Life(env, wf, user, isTask, events);
      var e := Life(Free(env), wf, user, isTask, fewer);
      SameDb(d, e) && Meets(env, wf, runner, ev, Later(d, ev.later), Later(e, ev.later))
    requires Accepts(RunnerOf(runner, ev), Life(env, wf, user, isTask, events + [ev]), f)
    ensures
      var db := Life(env, wf, user, isTask, events + [ev]);
      Resting(env, wf, db) && SameDb(Finish(env, wf, f, db), Life(Free(env), wf, user, isTask, fewer + [ev]))
  {
    hide SameDb, Finish, AtPause, GoodDb, Life, Happen, Start, Meets, Accepts, RetryWaits;
    var before := HistoryKeeps(env, wf, user, isTask, events);
    var target := Life(Free(env), wf, user, isTask, fewer);
    SameLater(before, target, ev.later);
    LaterIsGood(env, wf, before, ev.later);
    LifeOneMore(env, wf, user, isTask, events, ev);
    LifeOneMore(Free(env), wf, user, isTask, fewer, ev);
    EventSame(env, wf, runner, ev, Later(before, ev.later), Later(target, ev.later), f);
  }

  /** A restart, after what is before it was finished by its user. */
  lemma RestartIsSame(env: Env, wf: Workflow, user: string, isTask: bool, events: seq<Event>, ev: Event,
                      runner: string, f: string)
    requires Transparent(env) && SteadyWorkflow(wf) && ev.Restart?
    requires Resting(env, wf, Life(env, wf, user, isTask, events))
    requires Accepts(runner, Life(env, wf, user, isTask, events), ev.user)
    requires Accepts(runner, Life(env, wf, user, isTask, events + [ev]), f)
    ensures
      var before, db := Life(env, wf, user, isTask, events), Life(env, wf, user, isTask, events + [ev]);
      Resting(env, wf, db) && SameDb(Finish(env, wf, f, db), Finish(env, wf, ev.user, before))
  {
    hide SameDb, Exec, RestartRun, Paused, Life, GoodRows;
    var before := HistoryKeeps(env, wf, user, isTask, events);
    LifeOneMore(env, wf, user, isTask, events, ev);
    if before.proc.lastStatus != Running {
      NotRestarted(env, wf, f, before, ev);
    } else if RetryWaits(before) {
      FailedIsIdle(env, wf, before);
      WaitingIsInvisible(env, wf, runner, ev.user, before, ev.later, f);
    } else {
      RestartIsInvisible(env, wf, ev.user, before, ev.later, f);
    }
  }

  lemma RestartIsNotSeen(env: Env, wf: Workflow, user: string, isTask: bool, events: seq<Event>, ev: Event,
                         fewer: seq<Event>, runner: string, f: string)
    requires Transparent(env) && SteadyWorkflow(wf) && ev.Restart?
    requires Resting(env, wf, Life(env, wf, user, isTask, events))
    requires SameDb(Finish(env, wf, ev.user, Life(env, wf, user, isTask, events)),
                    Life(Free(env), wf, user, isTask, fewer))
    requires Accepts(runner, Life(env, wf, user, isTask, events), ev.user)
    requires Accepts(RunnerOf(runner, ev), Life(env, wf, user, isTask, events + [ev]), f)
    ensures
      var db := Life(env, wf, user, isTask, events + [ev]);
      Resting(env, wf, db) && SameDb(Finish(env, wf, f, db), Life(Free(env), wf, user, isTask, fewer))
  {
    hide SameDb, Life, Finish, Resting, Accepts, Transparent, SteadyWorkflow;
    RestartIsSame(env, wf, user, isTask, events, ev, runner, f);
    SameDbTrans(Finish(env, wf, f, Life(env, wf, user, isTask, events + [ev])),
                Finish(env, wf, ev.user, Life(env, wf, user, isTask, events)),
                Life(Free(env), wf, user, isTask, fewer));
  }

  /** Before a restart its user is accepted; before any other event the process has stopped. */
  lemma BeforeTheEvent(env: Env, wf: Workflow, runner: string, ev: Event, d: Db, e: Db, f: string)
    requires Meets(env, wf, runner, ev, Later(d, ev.later), Later(e, ev.later))
    ensures if ev.Restart? then Accepts(runner, d, ev.user) else Accepts(runner, d, f) && Finish(env, wf, f, d) == d
  {
    hide RestartRun;
  }

  lemma NothingIsInvisible(env: Env, wf: Workflow, user: string, isTask: bool, f: string)
    requires Transparent(env) && SteadyWorkflow(wf) && Accepts(user, Life(env, wf, user, isTask, []), f)
    ensures Resting(env, wf, Life(env, wf, user, isTask, []))
    ensures SameDb(Finish(env, wf, f, Life(env, wf, user, isTask, [])), Life(Free(env), wf, user, isTask, []))
  {
    hide SameDb, Exec, RestartRun, AtPause, Life;
    FirstRun(env, wf, user, isTask, f);
    LifeOfNone(Free(env), wf, user, isTask);
  }

  /** Main theorem: take any history of resumes, retries, callbacks, progress updates, timeouts and aborts, pause
      the engine between any two steps of any of its runs, and restart the process until it has stopped before
      the next event. Once it is finished its log, and all that was called for it, is that of the history without
      pauses and restarts, times and users aside. */
  lemma {:induction false} RestartsAreInvisible(env: Env, wf: Workflow, user: string, isTask: bool,
                                                events: seq<Event>, f: string)
    requires Transparent(env) && SteadyWorkflow(wf) && Orderly(env, wf, user, isTask, events)
    requires Accepts(Runner(user, events), Life(env, wf, user, isTask, events), f)
    ensures Resting(env, wf, Life(env, wf, user, isTask, events))
    ensures SameDb(Finish(env, wf, f, Life(env, wf, user, isTask, events)),
                   Life(Free(env), wf, user, isTask, WithoutRestarts(events)))
    decreases |events|
  {
    hide SameDb, Life, Finish, Resting, Accepts, Meets, Transparent, SteadyWorkflow, RunnerOf;
    if events == [] {
      NothingIsInvisible(env, wf, user, isTask, f);
    } else {
      var n := |events| - 1;
      var ev, fewer, runner := events[n], WithoutRestarts(events[..n]), Runner(user, events[..n]);
      var before, target := Life(env, wf, user, isTask, events[..n]), Life(Free(env), wf, user, isTask, fewer);
      assert events == events[..n] + [ev];
      BeforeTheEvent(env, wf, runner, ev, before, target, f);
      if ev.Restart? {
        RestartsAreInvisible(env, wf, user, isTask, events[..n], ev.user);
        RestartIsNotSeen(env, wf, user, isTask, events[..n], ev, fewer, runner, f);
        assert WithoutRestarts(events) == fewer;
      } else {
        RestartsAreInvisible(env, wf, user, isTask, events[..n], f);
        OtherEventIsSame(env, wf, user, isTask, events[..n], ev, fewer, runner, f);
      }
    }
  }
}
