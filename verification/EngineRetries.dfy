/** The input of a retry, which a pause can lose. */
module EngineRetries {
  import opened ProcessTypes
  import opened StepLog
  import opened Engine
  import opened EngineHistory
  import opened EngineInvariant
  import opened EngineTheorems
  import opened EngineTransparency
  import EngineGroups
  import EngineRestarts

  /** Why a paused retry must have no new input: when the engine is paused at its first check, the input of the
      user is forgotten, whatever it is. Without that pause it is what the step is run on. */
  lemma PausedRetryForgetsInput(env: Env, wf: Workflow, user: string, merged: State, db: Db)
    requires GoodWorkflow(wf) && IdleRows(env, wf, db.rows) && db.rows != [] && MergedFrom(wf, db.rows, merged)
    ensures
      var i := |ClearedRows(db.rows)|;
      var d := ResumeRun(env, wf, user, merged, db);
      if env.lock(false, db.now) then d == SetStatus(db, Running)
      else
        var (p2, d2) := Turn(env, user, wf.steps[i], Process(Success, merged), SetStatus(db, Running));
        d == Exec(env, user, wf.steps, i + 1, p2, d2).1
  {
    hide Logged, Turn, ProducedBy;
    var cs := ClearedRows(db.rows);
    RecoverIdle(env, wf, db.rows);
    LevelBefore(env, wf, cs, |cs|);
    LevelMerges(wf, StateBefore(wf, cs, |cs|), merged);
  }

  lemma LevelMerges(wf: Workflow, s: State, merged: State)
    requires GoodWorkflow(wf) && Level(s) && wf.input(s, merged)
    ensures SubStep !in merged
  {
    assert SamePlace(s, merged);
  }

  // ---- a concrete retry ---------------------------------------------------------------------------

  function Asks(): Leaf {
    EngineGroups.Leaf0("ask", Suspend, map[])
  }

  function Fails(): Leaf {
    Leaf(StepInfo("fail", System), (s: State, t: nat) => Process(Failed, map[ErrorText := Text("no")]))
  }

  /** `init >> step_group("g", [a step that asks for x, a step that fails]) >> done` */
  function Asking(): Workflow {
    Workflow([Single(EngineGroups.Leaf0("Start", Success, map[])), Group(StepInfo("g", System), [Asks(), Fails()]),
              Single(EngineGroups.Leaf0("Done", Complete, map[]))],
             map[], (s: State, t: State) => s - {EngineGroups.X} == t - {EngineGroups.X})
  }

  /** The group has failed. */
  function AskedOnce(): Db {
    Db(Proc("g", HasFailed, System, false),
       [Row(Text("Start"), Success, map[], "user", Num(0), 0),
        Row(Text("g"), Failed, map[ErrorText := Text("no")], "user", Num(1), 3)], 4, [])
  }

  function Answer(text: string): State {
    map[EngineGroups.X := Text(text)]
  }

  lemma AskingIsGood()
    ensures GoodWorkflow(Asking())
  {
    var g := Asking().steps[1];
    assert Leaves(g)[0].info.name == "g - Enter" && Leaves(g)[3].info.name == "g - Exit";
    assert |"g - Enter"| == 9 && |"g - Exit"| == 8 && |"ask"| == 3 && |"fail"| == 4;
    EngineGroups.LeafIsGood("Start", Success, map[]);
    EngineGroups.LeafIsGood("ask", Suspend, map[]);
    EngineGroups.LeafIsGood("Done", Complete, map[]);
    forall s: State
      ensures s + map[] == s
    {
    }
    InputIsGood();
  }

  lemma InputIsGood()
    ensures GoodInput(Asking().input)
  {
    forall s: State, m: State | Asking().input(s, m)
      ensures SamePlace(s, m) && (Quiet(s) ==> Quiet(m))
    {
      forall k | k != EngineGroups.X
        ensures Get(s, k) == Get(m, k) && (k in s <==> k in m)
      {
        assert k in s <==> k in s - {EngineGroups.X};
        assert k in m <==> k in m - {EngineGroups.X};
        assert Get(s, k) == Get(s - {EngineGroups.X}, k) && Get(m, k) == Get(m - {EngineGroups.X}, k);
      }
    }
  }

  lemma AskedIsCleared()
    ensures ClearedRows(AskedOnce().rows) == [AskedOnce().rows[0]]
  {
    var rows := AskedOnce().rows;
    var cs := [rows[0]];
    ClearedAppend([], rows[0]);
    ClearedAppend(cs, rows[1]);
    assert rows == cs + [rows[1]] && [] + cs == cs;
  }

  lemma AskedIsTraced(env: Env)
    requires GoodNorm(env.norm)
    ensures ProducedBy(env, Asking(), [AskedOnce().rows[0]], 0)
  {
    hide StepPasses;
    StartPasses(env);
  }

  /** After the start the log is idle, before the group. */
  lemma AskedIsIdle(env: Env)
    requires GoodNorm(env.norm)
    ensures IdleRows(env, Asking(), AskedOnce().rows) && ClearedRows(AskedOnce().rows) == [AskedOnce().rows[0]]
    ensures Recover(3, AskedOnce().rows) == (Process(Success, map[]), 1)
  {
    hide ClearedRows, ProducedBy;
    AskedIsCleared();
    AskedIsTraced(env);
  }

  lemma StartPasses(env: Env)
    requires GoodNorm(env.norm)
    ensures env.norm(map[]) == map[] && Tidy(env, map[])
    ensures StepPasses(env, Asking(), Asking().steps[0], map[], map[])
  {
    var none: State := map[];
    var step := Asking().steps[0];
    assert env.norm(none).Keys == {};
    var at := none + map[StartedAt := Num(0)];
    assert at + map[] == at && Cleaned(at) == none;
    assert RunsAt(env, Asking(), step, step.leaf, none, none, 0, none);
  }

  /** A key that is not taken out is stored. */
  lemma KeptHas(env: Env, step: Step, leaf: Leaf, s: State)
    requires GoodNorm(env.norm) && EngineGroups.X in s && s[EngineGroups.X].Text? && RemoveKeys !in s
    ensures
      var k := Kept(env, step, leaf, s);
      EngineGroups.X in k && k[EngineGroups.X] == s[EngineGroups.X]
  {
  }

  /** A retry that is not paused enters the group. */
  lemma AskedEnters(env: Env, user: string, text: string, db: Db) returns (p1: Process, db1: Db)
    requires GoodNorm(env.norm) && !env.lock(true, db.now) && db.rows == AskedOnce().rows
    ensures
      var g := Asking().steps[1];
      var s0 := Answer(text) + map[StartedAt := Num(db.now)];
      && ExecLeaves(env, user, g, 0, Process(Success, s0), db) == ExecLeaves(env, user, g, 1, p1, db1)
      && p1.status == Success && RemoveKeys !in p1.s && Get(p1.s, EngineGroups.X) == Text(text)
      && AtLeaf(env, Asking(), g, db.rows, map[], p1.s, p1.s, 1, db1.rows)
  {
    AskingIsGood();
    hide Logged, ExecLeaves, GroupPasses, Kept, Passes, Marked, GoodInput, GoodStep;
    var wf, m, g, s := Asking(), Answer(text), Asking().steps[1], map[];
    var s0 := m + map[StartedAt := Num(db.now)];
    GroupPassesZero(env, wf, g, s);
    assert AtLeaf(env, wf, g, db.rows, s, s, m, 0, db.rows);
    p1, db1 := GroupStep(env, wf, user, g, db.rows, s, s, m, 0, Process(Success, s0), db);
    assert RunsAt(env, wf, g, Leaves(g)[0], s, m, db.now, p1.s);
    GroupPassesOneMore(env, wf, g, 0, s, s, p1.s);
    KeptHas(env, g, Leaves(g)[0], Outcome(Leaves(g)[0], m, db.now).s);
  }

  /** Then it asks again. */
  lemma AskedLeaves(env: Env, user: string, text: string, db: Db) returns (p2: Process, db2: Db)
    requires GoodNorm(env.norm) && (forall t: nat :: !env.lock(true, t)) && db.rows == AskedOnce().rows
    ensures
      var g := Asking().steps[1];
      var s0 := Answer(text) + map[StartedAt := Num(db.now)];
      && ExecLeaves(env, user, g, 0, Process(Success, s0), db) == (p2, db2)
      && p2.status == Suspend && Tidy(env, p2.s) && HoldsGroup(g, db.rows, p2, db2.rows)
      && Get(p2.s, EngineGroups.X) == Text(text)
  {
    AskingIsGood();
    hide Logged, ExecLeaves, Kept, Marked, GoodInput, GoodStep, AtLeaf, InGroup;
    var wf, g := Asking(), Asking().steps[1];
    var p1, db1 := AskedEnters(env, user, text, db);
    p2, db2 := GroupStep(env, wf, user, g, db.rows, map[], p1.s, p1.s, 1, p1, db1);
    KeptHas(env, g, Leaves(g)[1], Outcome(Leaves(g)[1], p1.s, db1.now).s);
    StopsAfterOne(env, user, g, 1, p2, db2);
  }

  /** The retry that is not paused asks again, and the log has the answer that was merged. */
  lemma AnswerIsKept(env: Env, user: string, text: string)
    requires GoodEnv(env)
    ensures
      var d := ResumeRun(Free(env), Asking(), user, Answer(text), AskedOnce());
      d.rows != [] && Get(d.rows[|d.rows| - 1].state, EngineGroups.X) == Text(text)
  {
    hide Logged, ExecLeaves, IdleRows, Recover, ClearedRows, Tidy;
    AskedIsIdle(env);
    var free, wf, db := Free(env), Asking(), SetStatus(AskedOnce(), Running);
    EngineRestarts.IdleIsExec(free, wf, user, Answer(text), AskedOnce());
    var p2, db2 := AskedLeaves(free, user, text, db);
    GroupRelogged(free, user, wf.steps[1], db.rows, p2, db.now, db2);
  }

  lemma AnswerMerges(text: string)
    requires Recover(3, AskedOnce().rows) == (Process(Success, map[]), 1)
    ensures MergedFrom(Asking(), AskedOnce().rows, Answer(text))
  {
    var none: State := map[];
    assert none - {EngineGroups.X} == Answer(text) - {EngineGroups.X};
  }

  lemma AnswerIsLost(env: Env, user: string, text: string)
    requires GoodEnv(env) && env.lock(false, AskedOnce().now)
    ensures ResumeRun(env, Asking(), user, Answer(text), AskedOnce()) == SetStatus(AskedOnce(), Running)
  {
    hide ResumeRun, IdleRows, GoodWorkflow, Exec, Turn, MergedFrom, Recover, ClearedRows;
    AskingIsGood();
    AskedIsIdle(env);
    AnswerMerges(text);
    PausedRetryForgetsInput(env, Asking(), user, Answer(text), AskedOnce());
  }

  /** A concrete retry: two answers lead to different logs, and to the same one when the first check sees a
      pause. */
  lemma AnswerIsForgotten(env: Env, user: string)
    requires GoodEnv(env)
    ensures GoodWorkflow(Asking()) && CanBeResumed(AskedOnce().proc.lastStatus)
    ensures
      var a, b := Answer("a"), Answer("b");
      && MergedFrom(Asking(), AskedOnce().rows, a) && MergedFrom(Asking(), AskedOnce().rows, b)
      && ResumeRun(Free(env), Asking(), user, a, AskedOnce()) != ResumeRun(Free(env), Asking(), user, b, AskedOnce())
      && (env.lock(false, AskedOnce().now) ==>
            ResumeRun(env, Asking(), user, a, AskedOnce()) == ResumeRun(env, Asking(), user, b, AskedOnce()))
  {
    hide ResumeRun, IdleRows, GoodWorkflow, Recover, MergedFrom;
    AskingIsGood();
    AskedIsIdle(env);
    AnswerMerges("a");
    AnswerMerges("b");
    AnswerIsKept(env, user, "a");
    AnswerIsKept(env, user, "b");
    assert "a"[0] != "b"[0];
    if env.lock(false, AskedOnce().now) {
      AnswerIsLost(env, user, "a");
      AnswerIsLost(env, user, "b");
    }
  }
}
