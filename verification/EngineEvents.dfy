/** What the events in the life of a process leave in its rows, key by key. */
module EngineEvents {
  import opened ProcessTypes
  import opened StepLog
  import opened Engine
  import opened EngineHistory
  import opened EngineInvariant
  import opened EngineTheorems
  import opened LogWrites

  // ---- what a run does not touch ------------------------------------------------------------------

  /** The first `n` rows are as they were. */
  predicate KeepsFirst(n: nat, before: seq<Row>, after: seq<Row>) {
    n <= |before| && n <= |after| && after[..n] == before[..n]
  }

  /** A log write changes the last row at most. */
  lemma WriteKeepsFirst(norm: Norm, db: Db, user: string, step: StepInfo, p: Process, n: nat)
    requires n < |db.rows|
    ensures
      var d := Logged(norm, db, user, step, p).0;
      |db.rows| <= |d.rows| && KeepsFirst(n, db.rows, d.rows)
  {
    hide Entry, InPlaceIn;
  }

  lemma {:induction false} LeavesKeepFirst(env: Env, user: string, g: Step, k: nat, p: Process, db: Db, n: nat)
    requires g.Group? && k <= |Leaves(g)| && n < |db.rows|
    ensures
      var d := ExecLeaves(env, user, g, k, p, db).1;
      |db.rows| <= |d.rows| && KeepsFirst(n, db.rows, d.rows)
    decreases |Leaves(g)| - k
  {
    hide Logged, Marked;
    if k < |Leaves(g)| && p.status.Runs() && !env.lock(true, db.now) {
      var leaf := Leaves(g)[k];
      var mark := Marked(g, leaf, k > 0, Outcome(leaf, p.s, db.now));
      var db1 := Called(db, g.group, leaf.info);
      WriteKeepsFirst(env.norm, db1, user, leaf.info, mark, n);
      var (db2, p2) := Logged(env.norm, db1, user, leaf.info, mark);
      LeavesKeepFirst(env, user, g, k + 1, p2, db2, n);
    }
  }

  lemma TurnKeepsFirst(env: Env, user: string, step: Step, p: Process, db: Db, n: nat)
    requires n < |db.rows|
    ensures
      var d := Turn(env, user, step, p, db).1;
      |db.rows| <= |d.rows| && KeepsFirst(n, db.rows, d.rows)
  {
    hide Logged, ExecLeaves;
    var s := p.s + map[StartedAt := Num(db.now)];
    if step.Group? {
      LeavesKeepFirst(env, user, step, GroupStart(step, s), Process(Success, s), db, n);
    }
    var (r, db1) := RunStep(env, user, step, s, db);
    WriteKeepsFirst(env.norm, db1, user, step.Info(), r, n);
  }

  lemma {:induction false} ExecKeepsFirst(env: Env, user: string, steps: seq<Step>, i: nat, p: Process, db: Db, n: nat)
    requires i <= |steps| && n < |db.rows|
    ensures
      var d := Exec(env, user, steps, i, p, db).1;
      |db.rows| <= |d.rows| && KeepsFirst(n, db.rows, d.rows)
    decreases |steps| - i
  {
    hide Turn;
    if i < |steps| && p.status.Runs() && !env.lock(SubStep in p.s, db.now) {
      TurnKeepsFirst(env, user, steps[i], p, db, n);
      var (p2, db2) := Turn(env, user, steps[i], p, db);
      ExecKeepsFirst(env, user, steps, i + 1, p2, db2, n);
    }
  }

  // ---- resuming -----------------------------------------------------------------------------------

  /** A halted process is resumed: its row stays, and a row with the state that was merged comes behind it. The
      run goes on with that state, from the next step or in the same group, and writes behind the old row. */
  lemma ResumeIsWritten(env: Env, wf: Workflow, user: string, merged: State, db: Db)
    returns (step: Step, d1: Db, p1: Process)
    requires GoodEnv(env) && GoodWorkflow(wf) && HaltedRows(env, wf, db.rows)
    requires wf.input(db.rows[|db.rows| - 1].state, merged)
    ensures p1 == Process(Success, env.norm(Left(merged))) && d1.proc.lastStatus == Running
    ensures d1.rows == db.rows + [Row(Text(step.Info().name), Success, p1.s, user, Began(merged, db.now), db.now)]
    ensures step in wf.steps && step == wf.steps[|ClearedRows(db.rows)|]
    ensures
      var d := ResumeRun(env, wf, user, merged, db);
      var i := |ClearedRows(db.rows)|;
      && d == Exec(env, user, wf.steps, if StepGroup in merged then i else i + 1, p1, d1).1
      && |db.rows| < |d.rows| && d.rows[..|db.rows|] == db.rows
  {
    hide Logged, Exec, HaltedIn, ProducedBy, GoodStep, Recover;
    var i := |ClearedRows(db.rows)|;
    step := wf.steps[i];
    RecoverHalted(env, wf, db.rows);
    HaltedMerges(env, wf, step, StateBefore(wf, ClearedRows(db.rows), i), db.rows[|db.rows| - 1].state, merged);
    HaltedPlace(env, wf, step, StateBefore(wf, ClearedRows(db.rows), i), merged);
    var db0 := SetStatus(db, Running);
    AppendedRow(env.norm, db0, user, step.Info(), Process(Success, merged));
    ProcessRow(env.norm, db0, user, step.Info(), Process(Success, merged));
    var l := Logged(env.norm, db0, user, step.Info(), Process(Success, merged));
    d1, p1 := l.0, l.1;
    ExecKeepsFirst(env, user, wf.steps, if StepGroup in merged then i else i + 1, p1, d1, |db.rows|);
    assert d1.rows[..|db.rows|] == db.rows;
  }

  // ---- callbacks ----------------------------------------------------------------------------------

  /** The key under which the data of a callback is stored: the one that the step named for it, or
      `callback_result`. */
  function KeyOfResult(s: State): Key {
    if CallbackResultKey in s && s[CallbackResultKey].Name? then s[CallbackResultKey].key else Field("callback_result")
  }

  /** The row of the waiting step after the data of a callback was stored. */
  function WithResult(row: Row, data: Val): Row {
    row.(state := row.state[KeyOfResult(row.state) := data])
  }

  lemma WithResultIs(row: Row, data: Val)
    ensures row.(state := CallbackState(row.state, data)) == WithResult(row, data)
  {
  }

  lemma CallbackResumes(env: Env, wf: Workflow, token: string, user: string, data: Val, merged: State, later: nat,
                        db: Db) returns (db1: Db)
    requires GoodWorkflow(wf) && GoodDb(env, wf, db)
    requires Enabled(wf, Callback(token, user, data, merged, later), db)
    ensures
      var n := |db.rows| - 1;
      && n >= 0 && db1 == db.(rows := db.rows[n := WithResult(db.rows[n], data)])
      && wf.input(db1.rows[n].state, merged)
    ensures HaltedRows(env, wf, db1.rows) && ClearedRows(db1.rows) == ClearedRows(db.rows)
    ensures Happen(env, wf, Callback(token, user, data, merged, later), db) == ResumeRun(env, wf, user, merged, db1)
  {
    hide GoodRows, HaltedRows, ResumeRun, Recover, ResultKey, CallbackState, KeyOfResult, ClearedRows;
    GoodDbKinds(env, wf, db);
    RecoverHalted(env, wf, db.rows);
    var row := db.rows[|db.rows| - 1];
    WithResultIs(row, data);
    db1 := ReplaceState(db, CallbackState(row.state, data));
    ReplaceKeeps(env, wf, CallbackState(row.state, data), db);
  }

  /** A callback that is not refused stores its data in the row of the waiting step, which has every other key,
      and all rows before it, as they were; and the run that follows gets that row's state with the input that
      was merged. */
  lemma CallbackIsStored(env: Env, wf: Workflow, token: string, user: string, data: Val, merged: State, later: nat,
                         db: Db)
    requires GoodEnv(env) && GoodWorkflow(wf) && GoodDb(env, wf, db)
    requires Enabled(wf, Callback(token, user, data, merged, later), db)
    ensures
      var d := Happen(env, wf, Callback(token, user, data, merged, later), db);
      var n := |db.rows| - 1;
      && n >= 0 && n + 1 < |d.rows| && d.rows[..n] == db.rows[..n] && d.rows[n] == WithResult(db.rows[n], data)
      && ResumeRun(env, wf, user, merged, db.(rows := db.rows[n := WithResult(db.rows[n], data)])) == d
  {
    hide Exec, Logged, GoodStep, HaltedRows, ResumeRun, Happen, GoodDb, Enabled, WithResult, Left, Began, ClearedRows;
    var db1 := CallbackResumes(env, wf, token, user, data, merged, later, db);
    var step, d1, p1 := ResumeIsWritten(env, wf, user, merged, db1);
    var d := ResumeRun(env, wf, user, merged, db1);
    var n := |db.rows| - 1;
    assert d.rows[..n] == d.rows[..n + 1][..n] == db.rows[..n];
    assert d.rows[n] == d.rows[..n + 1][n] == db1.rows[n];
  }

  /** When nothing else is merged, the data of a callback is in the row that the resume appends, and in the state
      that the run goes on with. */
  lemma CallbackIsHandedOn(env: Env, wf: Workflow, token: string, user: string, data: Val, later: nat, db: Db)
    returns (d1: Db, p1: Process)
    requires GoodEnv(env) && GoodWorkflow(wf) && GoodDb(env, wf, db) && db.rows != []
    requires
      var s := db.rows[|db.rows| - 1].state;
      && Enabled(wf, Callback(token, user, data, s[KeyOfResult(s) := data], later), db)
      && Stays(s[KeyOfResult(s) := data], KeyOfResult(s))
    ensures
      var n := |db.rows| - 1;
      var s := db.rows[n].state;
      var key := KeyOfResult(s);
      var i := |ClearedRows(db.rows)|;
      && Happen(env, wf, Callback(token, user, data, s[key := data], later), db)
         == Exec(env, user, wf.steps, if StepGroup in s[key := data] then i else i + 1, p1, d1).1
      && |d1.rows| == n + 2 && d1.rows[..n] == db.rows[..n] && d1.rows[n] == WithResult(db.rows[n], data)
      && d1.rows[n + 1].state == p1.s && p1.status == d1.rows[n + 1].status == Success
      && key in p1.s && (data.Text? ==> p1.s[key] == data)
  {
    hide Exec, GoodStep, HaltedRows, ResumeRun, Happen, GoodDb, Enabled, Left, Began, ClearedRows, KeyOfResult, Stays;
    var s := db.rows[|db.rows| - 1].state;
    var merged := s[KeyOfResult(s) := data];
    var db1 := CallbackResumes(env, wf, token, user, data, merged, later, db);
    var step: Step;
    step, d1, p1 := ResumeIsWritten(env, wf, user, merged, db1);
    StayingIsHandedOn(env.norm, merged, KeyOfResult(s));
  }

  lemma StayingIsHandedOn(norm: Norm, s: State, key: Key)
    requires GoodNorm(norm) && Stays(s, key)
    ensures key in norm(Left(s)) && (s[key].Text? ==> norm(Left(s))[key] == s[key])
  {
    assert key in Left(s) && Left(s)[key] == s[key];
  }

  /** A callback or a progress update with another token, or to a process that does not await one, is refused. */
  lemma TokenIsChecked(env: Env, wf: Workflow, token: string, user: string, data: Val, merged: State, later: nat,
                       db: Db)
    requires GoodDb(env, wf, db)
    requires || db.proc.lastStatus != OnAwaitingCallback || db.rows == []
             || !(CallbackToken in db.rows[|db.rows| - 1].state
                  && db.rows[|db.rows| - 1].state[CallbackToken] == Text(token))
    ensures Happen(env, wf, Callback(token, user, data, merged, later), db) == db
    ensures Happen(env, wf, Progress(token, data, later), db) == db
  {
    hide GoodDb, Recover, Occur, CallbackState, ProgressState;
    if db.proc.lastStatus == OnAwaitingCallback {
      AwaitingIsRecovered(env, wf, db);
    }
  }

  lemma AwaitingIsRecovered(env: Env, wf: Workflow, db: Db)
    requires GoodDb(env, wf, db) && db.proc.lastStatus == OnAwaitingCallback
    ensures db.rows != [] && Recover(|wf.steps|, db.rows).0.s == db.rows[|db.rows| - 1].state
  {
    hide HaltedRows, GoodRows, Recover;
    GoodDbKinds(env, wf, db);
    RecoverHalted(env, wf, db.rows);
  }

  /** A progress update that is not refused changes the state of the waiting row, and nothing else: the data is
      under its key, and the state asks to remove that key. */
  lemma ProgressIsStored(env: Env, wf: Workflow, token: string, data: Val, later: nat, db: Db)
    requires GoodDb(env, wf, db) && Enabled(wf, Progress(token, data, later), db)
    ensures
      var n := |db.rows| - 1;
      var s := db.rows[n].state[CallbackProgress := data][RemoveKeys := Names([CallbackProgress])];
      && n >= 0
      && Happen(env, wf, Progress(token, data, later), db) == db.(rows := db.rows[n := db.rows[n].(state := s)])
  {
    hide HaltedRows, GoodRows, Recover;
    GoodDbKinds(env, wf, db);
    RecoverHalted(env, wf, db.rows);
    var was := db.rows[|db.rows| - 1].state;
    assert ProgressState(was, data) == was[CallbackProgress := data][RemoveKeys := Names([CallbackProgress])];
  }

  /** The progress is gone after the next write that does not fail, with all other keys in place. */
  lemma ProgressIsGone(norm: Norm, db: Db, user: string, step: StepInfo, p: Process, was: State, data: Val)
    requires GoodNorm(norm) && !p.status.Errs()
    requires p.s == was[CallbackProgress := data][RemoveKeys := Names([CallbackProgress])]
    ensures
      var q := Logged(norm, db, user, step, p).1;
      forall k :: k in q.s <==> k in was && k !in {CallbackProgress, StepNameOverride, ReplaceLastState, RemoveKeys,
                                                   StartedAt}
  {
    hide Logged;
    RemovedAreGone(norm, db, user, step, p, [CallbackProgress]);
  }

  // ---- timeouts and aborts ------------------------------------------------------------------------

  /** A timeout turns the awaiting row into a failed one with the reason as its error. The rest of its state
      stays, without a traceback; the row keeps its name and its creator. */
  lemma TimeoutIsStored(env: Env, wf: Workflow, reason: string, later: nat, db: Db)
    requires GoodDb(env, wf, db) && db.proc.lastStatus == OnAwaitingCallback
    ensures
      var d := Happen(env, wf, Timeout(reason, later), db);
      var n := |db.rows| - 1;
      var s := db.rows[n].state[ErrorText := Text(reason)] - {Traceback};
      var retried := db.rows[n].name == Text(reason) && db.rows[n].createdBy == SYSTEM_USER;
      && n >= 0 && |d.rows| == n + 1 && d.rows[..n] == db.rows[..n]
      && d.rows[n].name == db.rows[n].name && d.rows[n].createdBy == db.rows[n].createdBy
      && d.rows[n].status == Failed && d.rows[n].completedAt == db.now
      && d.rows[n].state
         == env.norm(if retried then Recounted(Left(s), Left(s), db.rows[n].completedAt) else Left(s))
      && d.proc.lastStep == reason && CanBeResumed(d.proc.lastStatus) && d.calls == db.calls
  {
    hide HaltedRows, GoodRows, Recover, Logged;
    GoodDbKinds(env, wf, db);
    RecoverHalted(env, wf, db.rows);
    var was := db.rows[|db.rows| - 1].state;
    var p := Process(Failed, was + map[ErrorText := Text(reason), ReplaceLastState := Flag(true)]);
    FailedInPlace(env.norm, db, SYSTEM_USER, StepInfo(reason, Nobody), p);
    ResumableAfter(env.norm, db, SYSTEM_USER, StepInfo(reason, Nobody), p);
    LoggedKeepsCalls(env.norm, db, SYSTEM_USER, StepInfo(reason, Nobody), p);
    TimedOutLeft(was, reason);
    StepIsNamed(env.norm, db, SYSTEM_USER, StepInfo(reason, Nobody), p);
  }

  lemma TimedOutLeft(was: State, reason: string)
    ensures Left((was + map[ErrorText := Text(reason), ReplaceLastState := Flag(true)]) - {Traceback})
         == Left(was[ErrorText := Text(reason)] - {Traceback})
  {
    hide AsksToDrop;
  }

  lemma StepIsNamed(norm: Norm, db: Db, user: string, step: StepInfo, p: Process)
    ensures Logged(norm, db, user, step, p).0.proc.lastStep == step.name
  {
  }

  /** An abort appends one row with what recovery gives, and marks the process as aborted; a completed process
      stays as it is. */
  lemma AbortIsStored(env: Env, wf: Workflow, user: string, later: nat, db: Db)
    requires GoodEnv(env) && GoodWorkflow(wf) && GoodDb(env, wf, db)
    ensures
      var d := Happen(env, wf, UserAbort(user, later), db);
      var p := Recover(|wf.steps|, db.rows).0;
      if p.status == Complete then d == db
      else
        && |d.rows| == |db.rows| + 1 && d.rows[..|db.rows|] == db.rows
        && d.proc.lastStep == "User Aborted" && d.proc.lastStatus == Aborted && d.calls == db.calls
        && var row := d.rows[|db.rows|];
           && row.name == Text("User Aborted") && row.status == Abort && row.createdBy == user
           && row.state == env.norm(Left(p.s)) && row.completedAt == db.now
  {
    hide GoodRows, Recover, Logged;
    var p := Recover(|wf.steps|, db.rows).0;
    if p.status != Complete {
      RecoversUnnamed(env, wf, db);
      var k := RecoversQuietly(env, wf, db);
      var step := StepInfo("User Aborted", Nobody);
      AppendedRow(env.norm, db, user, step, Process(Abort, p.s));
      ProcessRow(env.norm, db, user, step, Process(Abort, p.s));
      LoggedKeepsCalls(env.norm, db, user, step, Process(Abort, p.s));
    }
  }

  lemma RecoversUnnamed(env: Env, wf: Workflow, db: Db)
    requires GoodWorkflow(wf) && GoodDb(env, wf, db)
    ensures StepNameOverride !in Recover(|wf.steps|, db.rows).0.s
  {
    hide ProducedBy, GoodStep, EndsAfter;
    var cs := ClearedRows(db.rows);
    if IdleRows(env, wf, db.rows) {
      RecoverIdle(env, wf, db.rows);
      LevelBefore(env, wf, cs, |cs|);
    } else if HaltedRows(env, wf, db.rows) {
      RecoverHalted(env, wf, db.rows);
      HaltedPlace(env, wf, wf.steps[|cs|], StateBefore(wf, cs, |cs|), db.rows[|db.rows| - 1].state);
    } else {
      RecoverEnded(|wf.steps|, db.rows);
    }
  }

  // ---- recovery and groups ------------------------------------------------------------------------

  /** As many steps are behind a process as its log has cleared rows. Nothing is left of a completed process, nor
      of one whose workflow has become shorter than its log. */
  lemma WhatIsLeft(size: nat, rows: seq<Row>)
    requires rows != []
    ensures
      var k := |ClearedRows(rows)|;
      var (p, i) := Recover(size, rows);
      && (rows[|rows| - 1].status == Complete ==> p == Process(Complete, rows[|rows| - 1].state) && i == size)
      && (p.status != Complete ==> i == if k < size then k else size)
  {
    ClearedLast(rows);
  }

  /** A process that waits when its workflow has no step left for it: the resume raises, which only the process
      row shows. */
  lemma NoStepIsResumed(env: Env, wf: Workflow, user: string, merged: State, db: Db)
    requires db.rows != [] && db.rows[|db.rows| - 1].status.Halts() && |wf.steps| <= |ClearedRows(db.rows)|
    ensures
      ResumeRun(env, wf, user, merged, db)
      == db.(proc := Proc("Unknown", HasFailed, db.proc.assignee, db.proc.isTask))
  {
  }

  /** A step group begins with a step that sets its name, and ends with one that takes its keys out again. */
  lemma GroupIsFramed(group: StepInfo, subs: seq<Leaf>, s: State, now: nat)
    ensures
      var leaves := Leaves(Group(group, subs));
      var n := |subs| + 1;
      && |leaves| == n + 1 && leaves[1..n] == subs
      && leaves[0].info == StepInfo(group.name + " - Enter", System)
      && leaves[n].info == StepInfo(group.name + " - Exit", System)
      && leaves[0].run(s, now)
         == Process(Success, s[StepNameOverride := Text(group.name)][StepGroup := Text(group.name)])
      && leaves[n].run(s, now) == Process(Success, s[RemoveKeys := Names([StepGroup, SubStep])])
  {
    var name := Text(group.name);
    assert s + map[StepNameOverride := name, StepGroup := name] == s[StepNameOverride := name][StepGroup := name];
    assert s + map[RemoveKeys := Names([StepGroup, SubStep])] == s[RemoveKeys := Names([StepGroup, SubStep])];
  }

  /** The row of a group starts when the group does, however long its sub steps take. */
  lemma GroupRowIsTimed(env: Env, user: string, g: Step, p: Process, db: Db)
    requires g.Group? && 0 < db.now
    requires
      var (r, db1) := RunGroup(env, user, g, p.s + map[StartedAt := Num(db.now)], db);
      db1.rows != [] && !AsksToDrop(Get(r.s, RemoveKeys), StartedAt)
    ensures
      var d := Turn(env, user, g, p, db).1;
      d.rows != [] && d.rows[|d.rows| - 1].startedAt == Num(db.now)
  {
    hide ExecLeaves, AsksToDrop, Left, Logged;
    var (r, db1) := RunGroup(env, user, g, p.s + map[StartedAt := Num(db.now)], db);
    assert ReplaceLastState in r.s && r.s[ReplaceLastState] == Flag(true) && r.s[StartedAt] == Num(db.now);
    if r.status.Errs() {
      FailedInPlace(env.norm, db1, user, g.group, r);
    } else {
      InPlaceRow(env.norm, db1, user, g.group, r);
    }
  }

  // ---- tasks --------------------------------------------------------------------------------------

  lemma WriteKeepsTask(norm: Norm, db: Db, user: string, step: StepInfo, p: Process)
    ensures Logged(norm, db, user, step, p).0.proc.isTask == db.proc.isTask
  {
    hide Written;
  }

  lemma {:induction false} LeavesKeepTask(env: Env, user: string, g: Step, k: nat, p: Process, db: Db)
    requires g.Group? && k <= |Leaves(g)|
    ensures ExecLeaves(env, user, g, k, p, db).1.proc.isTask == db.proc.isTask
    decreases |Leaves(g)| - k
  {
    hide Logged, Marked;
    if k < |Leaves(g)| && p.status.Runs() && !env.lock(true, db.now) {
      var leaf := Leaves(g)[k];
      var mark := Marked(g, leaf, k > 0, Outcome(leaf, p.s, db.now));
      var db1 := Called(db, g.group, leaf.info);
      WriteKeepsTask(env.norm, db1, user, leaf.info, mark);
      var (db2, p2) := Logged(env.norm, db1, user, leaf.info, mark);
      LeavesKeepTask(env, user, g, k + 1, p2, db2);
    }
  }

  lemma TurnKeepsTask(env: Env, user: string, step: Step, p: Process, db: Db)
    ensures Turn(env, user, step, p, db).1.proc.isTask == db.proc.isTask
  {
    hide Logged, ExecLeaves;
    var s := p.s + map[StartedAt := Num(db.now)];
    if step.Group? {
      LeavesKeepTask(env, user, step, GroupStart(step, s), Process(Success, s), db);
    }
    var (r, db1) := RunStep(env, user, step, s, db);
    WriteKeepsTask(env.norm, db1, user, step.Info(), r);
  }

  lemma {:induction false} ExecKeepsTask(env: Env, user: string, steps: seq<Step>, i: nat, p: Process, db: Db)
    requires i <= |steps|
    ensures Exec(env, user, steps, i, p, db).1.proc.isTask == db.proc.isTask
    decreases |steps| - i
  {
    hide Turn;
    if i < |steps| && p.status.Runs() && !env.lock(SubStep in p.s, db.now) {
      TurnKeepsTask(env, user, steps[i], p, db);
      var (p2, db2) := Turn(env, user, steps[i], p, db);
      ExecKeepsTask(env, user, steps, i + 1, p2, db2);
    }
  }

  lemma RunKeepsTask(env: Env, user: string, steps: seq<Step>, i: nat, p: Process, db: Db)
    requires i <= |steps|
    ensures RunWf(env, user, steps, i, p, db).1.proc.isTask == db.proc.isTask
  {
    hide Logged, Exec;
    if !p.status.Halts() {
      ExecKeepsTask(env, user, steps, i, p.Resuming(), db);
    } else if i < |steps| {
      WriteKeepsTask(env.norm, db, user, steps[i].Info(), p.Resuming());
      var (db1, p1) := Logged(env.norm, db, user, steps[i].Info(), p.Resuming());
      ExecKeepsTask(env, user, steps, if StepGroup in p.s then i else i + 1, p1, db1);
    }
  }

  lemma ResumeKeepsTask(env: Env, wf: Workflow, user: string, merged: State, db: Db)
    ensures ResumeRun(env, wf, user, merged, db).proc.isTask == db.proc.isTask
  {
    hide RunWf, Recover;
    var (p, i) := Recover(|wf.steps|, db.rows);
    RunKeepsTask(env, user, wf.steps, i, p.(s := merged), SetStatus(db, Running));
  }

  lemma EventKeepsTask(env: Env, wf: Workflow, ev: Event, db: Db)
    ensures Happen(env, wf, ev, db).proc.isTask == db.proc.isTask
  {
    hide ResumeRun, Logged, Recover, CallbackState, ProgressState;
    if Enabled(wf, ev, db) {
      match ev
      case Resume(user, merged, _) => ResumeKeepsTask(env, wf, user, merged, db);
      case Restart(user, _) =>
        var merged := if db.rows == [] then wf.initial else Recover(|wf.steps|, db.rows).0.s;
        ResumeKeepsTask(env, wf, user, merged, SetStatus(db, Resumed));
      case Callback(_, user, data, merged, _) =>
        var s := CallbackState(Recover(|wf.steps|, db.rows).0.s, data);
        ResumeKeepsTask(env, wf, user, merged, ReplaceState(db, s));
      case Progress(_, _, _) =>
      case Timeout(reason, _) =>
        var p := Recover(|wf.steps|, db.rows).0;
        var failed := Process(Failed, p.s + map[ErrorText := Text(reason), ReplaceLastState := Flag(true)]);
        WriteKeepsTask(env.norm, db, SYSTEM_USER, StepInfo(reason, Nobody), failed);
      case UserAbort(user, _) =>
        var p := Recover(|wf.steps|, db.rows).0;
        WriteKeepsTask(env.norm, db, user, StepInfo("User Aborted", Nobody), p.Aborting());
    }
  }

  /** Whatever happens to a process, it stays what it was started as, a task or no task, so that its failures are
      told apart to the end. */
  lemma {:induction false} TaskStaysTask(env: Env, wf: Workflow, user: string, isTask: bool, events: seq<Event>)
    ensures Life(env, wf, user, isTask, events).proc.isTask == isTask
    decreases |events|
  {
    hide RunWf, Happen;
    if events == [] {
      var db := SetStatus(NewProcess(isTask), Running);
      RunKeepsTask(env, user, wf.steps, 0, Process(Success, wf.initial), db);
    } else {
      var n := |events| - 1;
      TaskStaysTask(env, wf, user, isTask, events[..n]);
      EventKeepsTask(env, wf, events[n], Later(Life(env, wf, user, isTask, events[..n]), events[n].later));
    }
  }
}
