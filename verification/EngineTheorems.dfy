/** What holds of every process after every history. */
module EngineTheorems {
  import opened ProcessTypes
  import opened StepLog
  import opened Engine
  import opened EngineHistory
  import opened EngineInvariant

  // ---- recovery -------------------------------------------------------------------------------

  lemma RecoverIdle(env: Env, wf: Workflow, rows: seq<Row>)
    requires IdleRows(env, wf, rows)
    ensures
      var (p, i) := Recover(|wf.steps|, rows);
      var cs := ClearedRows(rows);
      && i == |cs| && p.status.Runs()
      && p.s == if rows == [] then map[] else StateBefore(wf, cs, i)
  {
    var cs := ClearedRows(rows);
    if cs != [] {
      assert ProducedBy(env, wf, cs, |cs| - 1);
    }
  }

  lemma RecoverHalted(env: Env, wf: Workflow, rows: seq<Row>)
    requires HaltedRows(env, wf, rows)
    ensures
      var last := rows[|rows| - 1];
      Recover(|wf.steps|, rows) == (Process(last.status, last.state), |ClearedRows(rows)|)
  {
  }

  lemma RecoverEnded(size: nat, rows: seq<Row>)
    requires rows != [] && rows[|rows| - 1].status.Ends()
    ensures
      var last := rows[|rows| - 1];
      Recover(size, rows).0 == Process(last.status, last.state)
  {
    ClearedLast(rows);
  }

  lemma LevelBefore(env: Env, wf: Workflow, cs: seq<Row>, i: nat)
    requires GoodWorkflow(wf) && Trace(env, wf, cs) && i <= |cs|
    ensures Level(StateBefore(wf, cs, i))
  {
    if i > 0 {
      assert ProducedBy(env, wf, cs, i - 1);
    }
  }

  // ---- resuming -------------------------------------------------------------------------------

  lemma HaltsMerges(env: Env, wf: Workflow, step: Step, leaf: Leaf, s: State, h: State, u: State)
    requires GoodInput(wf.input) && Halts(env, wf, step, leaf, s, h) && wf.input(h, u)
    ensures Halts(env, wf, step, leaf, s, u)
  {
    var m: State, t: nat :| HaltsAt(env, wf, step, leaf, s, m, t, h);
    assert HaltsAt(env, wf, step, leaf, s, m, t, u);
  }

  /** Input merged into the state of a halted step leaves it halted in the same place. */
  lemma HaltedMerges(env: Env, wf: Workflow, step: Step, s: State, h: State, u: State)
    requires GoodInput(wf.input) && HaltedIn(env, wf, step, s, h) && wf.input(h, u)
    ensures HaltedIn(env, wf, step, s, u)
  {
    if step.Single? {
      HaltsMerges(env, wf, step, step.leaf, s, h, u);
    } else {
      var k: nat, c: State :| GroupHaltsAt(env, wf, step, s, h, k, c);
      HaltsMerges(env, wf, step, Leaves(step)[k], c, h, u);
      assert GroupHaltsAt(env, wf, step, s, u, k, c);
    }
  }

  lemma HaltedPlace(env: Env, wf: Workflow, step: Step, s: State, h: State)
    requires HaltedIn(env, wf, step, s, h)
    ensures Quiet(h) && (StepGroup in h <==> step.Group?)
    ensures SubStep in h ==> h[SubStep].Text?
    ensures StepGroup in h ==> h[StepGroup].Text?
  {
    hide GroupPasses, Halts;
  }

  lemma {:induction false} AfterFinds(leaves: seq<Leaf>, k: nat)
    requires k < |leaves| && forall i, j | 0 <= i < j < |leaves| :: leaves[i].info.name != leaves[j].info.name
    ensures After(leaves, Text(leaves[k].info.name)) == k + 1
  {
    if k > 0 {
      assert leaves[0].info.name != leaves[k].info.name;
      assert leaves[1..][k - 1] == leaves[k];
      AfterFinds(leaves[1..], k - 1);
    }
  }

  /** A row with the resumed process was appended to the rows `bs`. */
  ghost predicate ResumeAppended(env: Env, step: Step, merged: State, bs: seq<Row>, p: Process, db: Db) {
    && p == Process(Success, env.norm(Cleaned(merged)))
    && |db.rows| == |bs| + 1 && db.rows[..|bs|] == bs
    && db.rows[|bs|].name == Text(step.Info().name)
    && db.rows[|bs|].status == Success && db.rows[|bs|].state == p.s
    && db.proc.lastStatus == Running
    && Tidy(env, p.s) && Quiet(p.s) && SamePlace(merged, p.s)
  }

  lemma ResumeLogged(env: Env, user: string, step: Step, merged: State, db: Db)
    requires GoodNorm(env.norm) && Quiet(merged)
    requires SubStep in merged ==> merged[SubStep].Text?
    requires StepGroup in merged ==> merged[StepGroup].Text?
    ensures
      var (db', p) := Logged(env.norm, db, user, step.Info(), Process(Success, merged));
      ResumeAppended(env, step, merged, db.rows, p, db')
  {
    LogAppends(env.norm, db, user, step.Info(), Process(Success, merged));
    LoggedReports(env.norm, db, user, step.Info(), Process(Success, merged));
    CleanedIsTidy(env, merged);
    CleanedStays(env, merged);
  }

  lemma ResumedSingle(env: Env, wf: Workflow, merged: State, bs: seq<Row>, i: nat, p: Process, db: Db)
    requires GoodWorkflow(wf) && Trace(env, wf, ClearedRows(bs)) && i == |ClearedRows(bs)| && 0 < i < |wf.steps|
    requires wf.steps[i].Single? && HaltedIn(env, wf, wf.steps[i], StateBefore(wf, ClearedRows(bs), i), merged)
    requires ResumeAppended(env, wf.steps[i], merged, bs, p, db)
    ensures Ready(env, wf, i + 1, p, db)
  {
    hide ProducedBy, GoodInput, GoodLeaf;
    var step := wf.steps[i];
    var s := StateBefore(wf, ClearedRows(bs), i);
    assert ResumesTo(env, wf, step, step.leaf, s, merged, p.s);
    assert StepLogged(env, wf, i, bs, p, db);
    AfterStep(env, wf, i, bs, p, db);
  }

  /** The group goes on after the leaf it halted at. */
  lemma GroupGoesOn(env: Env, wf: Workflow, merged: State, bs: seq<Row>, g: Step, s: State, p: Process, db: Db,
                    k: nat, c: State)
    requires GoodNorm(env.norm) && GoodInput(wf.input) && g.Group? && GoodStep(g)
    requires GroupHaltsAt(env, wf, g, s, merged, k, c) && ResumeAppended(env, g, merged, bs, p, db)
    ensures
      var s0 := p.s + map[StartedAt := Num(db.now)];
      && GroupStart(g, s0) == GroupStart(g, p.s) == k + 1 && SubStep in p.s
      && AtLeaf(env, wf, g, bs, s, p.s, p.s, k + 1, db.rows)
      && s0 + map[StartedAt := Num(db.now)] == p.s + map[StartedAt := Num(db.now)]
  {
    hide GroupPasses, IsPath, RunsAt, HaltsAt;
    assert ResumesTo(env, wf, g, Leaves(g)[k], c, merged, p.s);
    GroupPassesOneMore(env, wf, g, k, s, c, p.s);
    assert InGroup(g, k + 1, p.s);
    AfterFinds(Leaves(g), k);
  }

  lemma ResumedGroup(env: Env, wf: Workflow, user: string, merged: State, bs: seq<Row>, i: nat, p: Process, db: Db,
                     k: nat, c: State)
    returns (p2: Process, db2: Db)
    requires GoodEnv(env) && GoodWorkflow(wf)
    requires Trace(env, wf, ClearedRows(bs)) && i == |ClearedRows(bs)| && 0 < i < |wf.steps|
    requires wf.steps[i].Group?
    requires GroupHaltsAt(env, wf, wf.steps[i], StateBefore(wf, ClearedRows(bs), i), merged, k, c)
    requires ResumeAppended(env, wf.steps[i], merged, bs, p, db)
    ensures (p2, db2) == Turn(env, user, wf.steps[i], p, db) && SubStep in p.s
    ensures StepLogged(env, wf, i, bs, p2, db2)
  {
    hide Logged, ExecLeaves, GroupPasses, Passes, IsPath;
    var g := wf.steps[i];
    var s := StateBefore(wf, ClearedRows(bs), i);
    GroupGoesOn(env, wf, merged, bs, g, s, p, db, k, c);
    p2, db2 := GroupLogged(env, wf, user, g, bs, s, p.s, p.s, k + 1, p.s + map[StartedAt := Num(db.now)], db);
    GroupStepLogged(env, wf, i, bs, s, p2, db2);
  }

  lemma ResumedGroupRuns(env: Env, wf: Workflow, user: string, merged: State, bs: seq<Row>, i: nat, p: Process, db: Db)
    returns (d: Db)
    requires GoodEnv(env) && GoodWorkflow(wf)
    requires Trace(env, wf, ClearedRows(bs)) && i == |ClearedRows(bs)| && 0 < i < |wf.steps|
    requires wf.steps[i].Group? && HaltedIn(env, wf, wf.steps[i], StateBefore(wf, ClearedRows(bs), i), merged)
    requires ResumeAppended(env, wf.steps[i], merged, bs, p, db)
    ensures d == Exec(env, user, wf.steps, i, p, db).1 && GoodDb(env, wf, d)
  {
    hide Turn, Passes, IsPath, GroupPasses, Halts, GroupHaltsAt;
    var k: nat, c: State :|
      GroupHaltsAt(env, wf, wf.steps[i], StateBefore(wf, ClearedRows(bs), i), merged, k, c);
    hide Turn;
    var p2, db2 := ResumedGroup(env, wf, user, merged, bs, i, p, db, k, c);
    AfterStep(env, wf, i, bs, p2, db2);
    if p2.status.Runs() {
      d := ExecKeeps(env, wf, user, i + 1, p2, db2);
    } else {
      d := db2;
    }
  }

  lemma ResumeHalted(env: Env, wf: Workflow, user: string, merged: State, db: Db)
    returns (d: Db)
    requires GoodEnv(env) && GoodWorkflow(wf) && HaltedRows(env, wf, db.rows)
    requires wf.input(db.rows[|db.rows| - 1].state, merged)
    ensures
      var i := |ClearedRows(db.rows)|;
      var (db', p) := Logged(env.norm, db, user, wf.steps[i].Info(), Process(Success, merged));
      d == Exec(env, user, wf.steps, if StepGroup in merged then i else i + 1, p, db').1
    ensures GoodDb(env, wf, d)
  {
    hide Logged, Exec, HaltedIn, StepPasses;
    var i := |ClearedRows(db.rows)|;
    var step := wf.steps[i];
    HaltedMerges(env, wf, step, StateBefore(wf, ClearedRows(db.rows), i), db.rows[|db.rows| - 1].state, merged);
    HaltedPlace(env, wf, step, StateBefore(wf, ClearedRows(db.rows), i), merged);
    ResumeLogged(env, user, step, merged, db);
    var (db1, p1) := Logged(env.norm, db, user, step.Info(), Process(Success, merged));
    if step.Single? {
      ResumedSingle(env, wf, merged, db.rows, i, p1, db1);
      d := ExecKeeps(env, wf, user, i + 1, p1, db1);
    } else {
      d := ResumedGroupRuns(env, wf, user, merged, db.rows, i, p1, db1);
    }
  }

  lemma ResumeKeeps(env: Env, wf: Workflow, user: string, merged: State, db: Db)
    returns (d: Db)
    requires GoodEnv(env) && GoodWorkflow(wf) && MergedFrom(wf, db.rows, merged)
    requires IdleRows(env, wf, db.rows) || HaltedRows(env, wf, db.rows)
    ensures d == ResumeRun(env, wf, user, merged, db) && GoodDb(env, wf, d)
  {
    hide Exec, Logged, HaltedIn, ProducedBy, GoodStep;
    var cs := ClearedRows(db.rows);
    var db1 := SetStatus(db, Running);
    if IdleRows(env, wf, db.rows) {
      RecoverIdle(env, wf, db.rows);
      LevelBefore(env, wf, cs, |cs|);
      d := ExecKeeps(env, wf, user, |cs|, Process(Success, merged), db1);
    } else {
      RecoverHalted(env, wf, db.rows);
      d := ResumeHalted(env, wf, user, merged, db1);
    }
  }

  // ---- every event ----------------------------------------------------------------------------

  lemma GoodDbKinds(env: Env, wf: Workflow, db: Db)
    requires GoodDb(env, wf, db)
    ensures db.proc.lastStatus == OnAwaitingCallback ==>
              HaltedRows(env, wf, db.rows) && db.rows[|db.rows| - 1].status == AwaitingCallback
    ensures CanBeResumed(db.proc.lastStatus) || db.proc.lastStatus == Running ==>
              IdleRows(env, wf, db.rows) || HaltedRows(env, wf, db.rows)
  {
  }

  /** Data written into the state of an awaiting step. */
  lemma ReplaceKeeps(env: Env, wf: Workflow, s: State, db: Db)
    requires GoodWorkflow(wf) && GoodDb(env, wf, db) && HaltedRows(env, wf, db.rows)
    requires wf.input(db.rows[|db.rows| - 1].state, s)
    ensures
      var db' := ReplaceState(db, s);
      && GoodDb(env, wf, db') && HaltedRows(env, wf, db'.rows) && db'.rows[|db'.rows| - 1].state == s
      && ClearedRows(db'.rows) == ClearedRows(db.rows)
  {
    var n := |db.rows| - 1;
    var db' := ReplaceState(db, s);
    var cs := ClearedRows(db.rows);
    assert db'.rows[..n] == db.rows[..n];
    ClearedLast(db.rows);
    ClearedLast(db'.rows);
    HaltedMerges(env, wf, wf.steps[|cs|], StateBefore(wf, cs, |cs|), db.rows[n].state, s);
  }

  /** A callback that timed out turns the awaiting row into a failed one. */
  lemma TimeoutKeeps(env: Env, wf: Workflow, reason: string, db: Db)
    requires GoodWorkflow(wf) && GoodDb(env, wf, db)
    ensures GoodDb(env, wf, FailAwaitingWf(env, wf, reason, db))
  {
    hide Logged, Trace, HaltedIn, ClearedRows, GoodWorkflow;
    if IdleRows(env, wf, db.rows) {
      RecoverIdle(env, wf, db.rows);
    } else if HaltedRows(env, wf, db.rows) {
      RecoverHalted(env, wf, db.rows);
      var n := |db.rows| - 1;
      if db.rows[n].status == AwaitingCallback {
        var failed := Process(Failed, db.rows[n].state + map[ErrorText := Text(reason),
            ReplaceLastState := Flag(true)]);
        var step := StepInfo(reason, Nobody);
        LogReplaces(env.norm, db, SYSTEM_USER, step, failed);
        LoggedReports(env.norm, db, SYSTEM_USER, step, failed);
        var db' := Logged(env.norm, db, SYSTEM_USER, step, failed).0;
        assert db'.rows[..n] == db.rows[..n];
        ClearedLast(db.rows);
        ClearedLast(db'.rows);
      }
    } else {
      RecoverEnded(|wf.steps|, db.rows);
    }
  }

  lemma AbortAppends(env: Env, wf: Workflow, cs: seq<Row>, k: nat, bs: seq<Row>, p: Process, db: Db)
    requires p.status == Abort && db.rows != [] && db.rows[..|db.rows| - 1] == bs && ClearedRows(bs) == cs
    requires db.rows[|db.rows| - 1].status == p.status && Tidy(env, db.rows[|db.rows| - 1].state)
    requires Reports(db.proc.lastStatus, p.status)
    requires k <= |cs| && Trace(env, wf, cs[..k]) && forall i | k <= i < |cs| :: cs[i].status.Ends()
    ensures GoodDb(env, wf, db)
  {
    var last := db.rows[|db.rows| - 1];
    ClearedLast(db.rows);
    assert (cs + [last])[..k] == cs[..k];
    assert EndsAfter(env, wf, cs + [last], k);
  }

  /** What a process that is not completed recovers to can be logged as aborted. */
  lemma RecoversQuietly(env: Env, wf: Workflow, db: Db) returns (k: nat)
    requires GoodEnv(env) && GoodWorkflow(wf) && GoodDb(env, wf, db)
    ensures !Truthy(Get(Recover(|wf.steps|, db.rows).0.s, ReplaceLastState))
    ensures
      var cs := ClearedRows(db.rows);
      k <= |cs| && Trace(env, wf, cs[..k]) && forall i | k <= i < |cs| :: cs[i].status.Ends()
  {
    var cs := ClearedRows(db.rows);
    k := |cs|;
    assert cs[..|cs|] == cs;
    if IdleRows(env, wf, db.rows) {
      RecoverIdle(env, wf, db.rows);
      LevelBefore(env, wf, cs, |cs|);
    } else if HaltedRows(env, wf, db.rows) {
      RecoverHalted(env, wf, db.rows);
    } else {
      RecoverEnded(|wf.steps|, db.rows);
      k :| EndsAfter(env, wf, cs, k);
    }
  }

  lemma AbortLogged(env: Env, user: string, s: State, db: Db)
    requires GoodNorm(env.norm) && !Truthy(Get(s, ReplaceLastState))
    ensures
      var db' := Logged(env.norm, db, user, StepInfo("User Aborted", Nobody), Process(Abort, s)).0;
      && db'.rows != [] && db'.rows[..|db'.rows| - 1] == db.rows
      && db'.rows[|db'.rows| - 1].status == Abort && Tidy(env, db'.rows[|db'.rows| - 1].state)
      && Reports(db'.proc.lastStatus, Abort)
  {
    LogAppends(env.norm, db, user, StepInfo("User Aborted", Nobody), Process(Abort, s));
    LoggedReports(env.norm, db, user, StepInfo("User Aborted", Nobody), Process(Abort, s));
    CleanedIsTidy(env, s);
  }

  lemma AbortKeeps(env: Env, wf: Workflow, user: string, db: Db)
    requires GoodEnv(env) && GoodWorkflow(wf) && GoodDb(env, wf, db)
    ensures GoodDb(env, wf, AbortWf(env, wf, user, db))
  {
    var k := RecoversQuietly(env, wf, db);
    var p := Recover(|wf.steps|, db.rows).0;
    if p.status != Complete {
      AbortLogged(env, user, p.s, db);
      var (db', p') := Logged(env.norm, db, user, StepInfo("User Aborted", Nobody), p.Aborting());
      AbortAppends(env, wf, ClearedRows(db.rows), k, db.rows, p', db');
    }
  }

  lemma CallbackKeeps(env: Env, wf: Workflow, user: string, data: Val, merged: State, db: Db)
    returns (d: Db)
    requires GoodEnv(env) && GoodWorkflow(wf) && GoodDb(env, wf, db) && HaltedRows(env, wf, db.rows)
    requires
      var s := Recover(|wf.steps|, db.rows).0.s;
      wf.input(s, CallbackState(s, data)) && wf.input(CallbackState(s, data), merged)
    ensures d == CallbackRun(env, wf, user, data, merged, db) && GoodDb(env, wf, d)
  {
    RecoverHalted(env, wf, db.rows);
    var s := Recover(|wf.steps|, db.rows).0.s;
    var db1 := ReplaceState(db, CallbackState(s, data));
    ReplaceKeeps(env, wf, CallbackState(s, data), db);
    RecoverHalted(env, wf, db1.rows);
    d := ResumeKeeps(env, wf, user, merged, db1);
  }

  lemma RestartKeeps(env: Env, wf: Workflow, user: string, db: Db)
    returns (d: Db)
    requires GoodEnv(env) && GoodWorkflow(wf) && GoodDb(env, wf, db) && db.proc.lastStatus == Running
    ensures d == RestartRun(env, wf, user, db) && GoodDb(env, wf, d)
  {
    GoodDbKinds(env, wf, db);
    var merged := if db.rows == [] then wf.initial else Recover(|wf.steps|, db.rows).0.s;
    d := ResumeKeeps(env, wf, user, merged, SetStatus(db, Resumed));
  }

  lemma ProgressKeeps(env: Env, wf: Workflow, data: Val, db: Db)
    requires GoodEnv(env) && GoodWorkflow(wf) && GoodDb(env, wf, db) && HaltedRows(env, wf, db.rows)
    requires var s := Recover(|wf.steps|, db.rows).0.s; wf.input(s, ProgressState(s, data))
    ensures GoodDb(env, wf, ProgressWritten(wf, data, db))
  {
    RecoverHalted(env, wf, db.rows);
    ReplaceKeeps(env, wf, ProgressState(Recover(|wf.steps|, db.rows).0.s, data), db);
  }

  lemma HappenKeeps(env: Env, wf: Workflow, ev: Event, db: Db)
    returns (d: Db)
    requires GoodEnv(env) && GoodWorkflow(wf) && GoodDb(env, wf, db)
    ensures d == Happen(env, wf, ev, db) && GoodDb(env, wf, d)
  {
    d := db;
    GoodDbKinds(env, wf, db);
    if Enabled(wf, ev, db) {
      match ev
      case Resume(user, merged, _) => d := ResumeKeeps(env, wf, user, merged, db);
      case Restart(user, _) => d := RestartKeeps(env, wf, user, db);
      case Callback(_, user, data, merged, _) => d := CallbackKeeps(env, wf, user, data, merged, db);
      case Progress(_, data, _) => ProgressKeeps(env, wf, data, db); d := ProgressWritten(wf, data, db);
      case Timeout(reason, _) => TimeoutKeeps(env, wf, reason, db); d := FailAwaitingWf(env, wf, reason, db);
      case UserAbort(user, _) => AbortKeeps(env, wf, user, db); d := AbortWf(env, wf, user, db);
    }
  }

  /** A process after its first run and then `events`. */
  function Life(env: Env, wf: Workflow, user: string, isTask: bool, events: seq<Event>): Db {
    History(env, wf, events, Start(env, wf, user, NewProcess(isTask)))
  }

  /** Main theorem: whatever happens to a process after its start, its rows stay a trace. */
  lemma {:induction false} HistoryKeeps(env: Env, wf: Workflow, user: string, isTask: bool, events: seq<Event>)
    returns (d: Db)
    requires GoodEnv(env) && GoodWorkflow(wf)
    ensures d == Life(env, wf, user, isTask, events) && GoodDb(env, wf, d)
  {
    if events == [] {
      d := ExecKeeps(env, wf, user, 0, Process(Success, wf.initial), SetStatus(NewProcess(isTask), Running));
    } else {
      var before := HistoryKeeps(env, wf, user, isTask, events[..|events| - 1]);
      var ev := events[|events| - 1];
      d := HappenKeeps(env, wf, ev, Later(before, ev.later));
    }
  }

  /** While a process is not completed or aborted, the number of its cleared rows is the index of the
      step that a resume begins with, and the i-th cleared row was produced by the i-th step. */
  lemma ClearedRowsAreTheProgramCounter(env: Env, wf: Workflow, user: string, isTask: bool, events: seq<Event>)
    requires GoodEnv(env) && GoodWorkflow(wf)
    ensures
      var db := Life(env, wf, user, isTask, events);
      var cs := ClearedRows(db.rows);
      db.proc.lastStatus != Aborted && db.proc.lastStatus != Completed ==>
        && Recover(|wf.steps|, db.rows).1 == |cs| < |wf.steps|
        && forall i | 0 <= i < |cs| :: ProducedBy(env, wf, cs, i)
  {
    var db := HistoryKeeps(env, wf, user, isTask, events);
    if IdleRows(env, wf, db.rows) {
      RecoverIdle(env, wf, db.rows);
    } else if HaltedRows(env, wf, db.rows) {
      RecoverHalted(env, wf, db.rows);
    }
  }
}
