/** Where recovery is not transparent: a pause while a step group is under way. */
module EngineGroups {
  import opened ProcessTypes
  import opened StepLog
  import opened Engine
  import opened EngineHistory
  import opened EngineInvariant
  import opened EngineTheorems

  // ---- when a pass through a group is cut short ---------------------------------------------------

  /** The engine is paused at one of the `n` moments from `from` on. */
  ghost predicate PausedWithin(env: Env, from: nat, n: int) {
    exists t: nat :: from <= t < from + n && env.lock(true, t)
  }

  /** After a whole pass through a group its keys are gone from the state. */
  lemma PassedIsOut(env: Env, wf: Workflow, g: Step, s: State, q: State)
    requires GoodNorm(env.norm) && g.Group? && StepPasses(env, wf, g, s, q)
    ensures SubStep !in q && StepGroup !in q
  {
    var n := |Leaves(g)|;
    var path: seq<State> :| IsPath(env, wf, g, path) && |path| == n + 1 && path[0] == s && path[n] == q;
    assert Passes(env, wf, g, Leaves(g)[n - 1], path[n - 1], path[n]);
    ExitIsLast(env, wf, g, path[n - 1], q);
  }

  lemma ExitIsLast(env: Env, wf: Workflow, g: Step, s: State, q: State)
    requires GoodNorm(env.norm) && g.Group? && Passes(env, wf, g, Leaves(g)[|Leaves(g)| - 1], s, q)
    ensures SubStep !in q && StepGroup !in q
  {
    var leaf := Leaves(g)[|Leaves(g)| - 1];
    if m: State, t: nat :| RunsAt(env, wf, g, leaf, s, m, t, q) {
      ExitMovesOn(env, g, m, t);
    } else {
      var h: State :| ResumesTo(env, wf, g, leaf, s, h, q);
      var m: State, t: nat :| HaltsAt(env, wf, g, leaf, s, m, t, h);
      HaltsInside(env, g, |Leaves(g)| - 1, m, t);
      assert false;
    }
  }

  /** A loop of a group that goes on at leaf `k` and ends with the process still running: the stored state
      names a sub step if and only if the engine was paused at one of the checks it had left to make. */
  lemma GroupIsCutShort(env: Env, wf: Workflow, user: string, g: Step, bs: seq<Row>, s: State, c: State, m: State,
                        k: nat, p: Process, db: Db)
    requires GoodNorm(env.norm) && GoodInput(wf.input) && g.Group? && GoodStep(g) && k <= |Leaves(g)|
    requires p.status.Runs() && p.s + map[StartedAt := Num(db.now)] == m + map[StartedAt := Num(db.now)]
    requires AtLeaf(env, wf, g, bs, s, c, m, k, db.rows)
    requires env.lock(true, db.now) || k == |Leaves(g)| ==>
               k > 0 && m == c == p.s && Tidy(env, c) && HoldsGroup(g, bs, p, db.rows)
    ensures
      var r := ExecLeaves(env, user, g, k, p, db).0;
      r.status.Runs() ==> (SubStep in r.s <==> PausedWithin(env, db.now, |Leaves(g)| - k))
  {
    hide ExecLeaves, AtLeaf, GoodStep, HoldsGroup;
    var e := GroupEnds(env, wf, user, g, bs, s, c, m, k, p, db);
    var r := ExecLeaves(env, user, g, k, p, db);
    if r.0.status.Runs() && e < |Leaves(g)| {
      assert env.lock(true, r.1.now) && db.now <= r.1.now < db.now + (|Leaves(g)| - k);
    }
  }

  /** A group that goes on at leaf `k`, with the whole turn of the loop around it. When it ends with the
      process still running, its row counts as cleared and recovery goes on after the group. That is right
      if and only if the engine is not paused at one of the checks that the group has left to make. */
  lemma RunningGroupIsCleared(env: Env, wf: Workflow, user: string, i: nat, bs: seq<Row>, s: State, c: State,
                              m: State, k: nat, p: Process, db: Db)
    returns (p2: Process, db2: Db)
    requires GoodNorm(env.norm) && GoodInput(wf.input) && i < |wf.steps| && wf.steps[i].Group? && GoodStep(wf.steps[i])
    requires |ClearedRows(bs)| == i && k < |Leaves(wf.steps[i])| && !env.lock(true, db.now)
    requires m == p.s && GroupStart(wf.steps[i], p.s + map[StartedAt := Num(db.now)]) == k
    requires AtLeaf(env, wf, wf.steps[i], bs, s, c, m, k, db.rows)
    ensures (p2, db2) == Turn(env, user, wf.steps[i], p, db)
    ensures
      var g := wf.steps[i];
      p2.status.Runs() ==>
        && Recover(|wf.steps|, db2.rows) == (p2, i + 1) && |ClearedRows(db2.rows)| == i + 1
        && (StepPasses(env, wf, g, s, p2.s) <==> !PausedWithin(env, db.now, |Leaves(g)| - k))
        && (SubStep in p2.s <==> PausedWithin(env, db.now, |Leaves(g)| - k))
        && (SubStep in p2.s ==> exists j: nat :: PausedAfter(env, wf, g, s, p2.s, j))
  {
    hide Logged, ExecLeaves, GroupPasses, AtLeaf, ClearedRows, GoodStep;
    var g := wf.steps[i];
    var s0 := p.s + map[StartedAt := Num(db.now)];
    assert s0 + map[StartedAt := Num(db.now)] == m + map[StartedAt := Num(db.now)];
    p2, db2 := GroupRuns(env, wf, user, g, bs, s, c, m, k, s0, db);
    GroupIsCutShort(env, wf, user, g, bs, s, c, m, k, Process(Success, s0), db);
    if p2.status.Runs() {
      assert db2.rows == bs + [db2.rows[|bs|]];
      ClearedAppend(bs, db2.rows[|bs|]);
      if StepPasses(env, wf, g, s, p2.s) {
        PassedIsOut(env, wf, g, s, p2.s);
      }
    }
  }

  /** A process that is killed inside a group, after the log write of a leaf, leaves the rows that it has then.
      They recover to what a pause at that moment leaves, although the loop around the group has not logged it:
      so the same is lost. `env.lock` tells the moment. */
  lemma KilledIsPaused(env: Env, wf: Workflow, user: string, i: nat, bs: seq<Row>, s: State, c: State,
                       m: State, k: nat, p: Process, db: Db)
    requires GoodNorm(env.norm) && GoodInput(wf.input) && i < |wf.steps| && wf.steps[i].Group? && GoodStep(wf.steps[i])
    requires |ClearedRows(bs)| == i && k < |Leaves(wf.steps[i])| && !env.lock(true, db.now)
    requires m == p.s && GroupStart(wf.steps[i], p.s + map[StartedAt := Num(db.now)]) == k
    requires AtLeaf(env, wf, wf.steps[i], bs, s, c, m, k, db.rows)
    ensures
      var s0 := p.s + map[StartedAt := Num(db.now)];
      var (q, killed) := ExecLeaves(env, user, wf.steps[i], k, Process(Success, s0), db);
      var (p2, db2) := Turn(env, user, wf.steps[i], p, db);
      q.status.Runs() ==>
        Recover(|wf.steps|, killed.rows) == Recover(|wf.steps|, db2.rows) == (p2, i + 1)
  {
    hide Logged, ExecLeaves, GroupPasses, AtLeaf, ClearedRows, GoodStep, Recover;
    var g := wf.steps[i];
    var s0 := p.s + map[StartedAt := Num(db.now)];
    assert s0 + map[StartedAt := Num(db.now)] == m + map[StartedAt := Num(db.now)];
    var p2, db2 := GroupRuns(env, wf, user, g, bs, s, c, m, k, s0, db);
    GroupLoop(env, wf, user, g, bs, s, c, m, k, Process(Success, s0), db);
    var (q, killed) := ExecLeaves(env, user, g, k, Process(Success, s0), db);
    if q.status.Runs() {
      GroupRowRecovers(|wf.steps|, g, bs, q, killed.rows);
      GroupRowRecovers(|wf.steps|, g, bs, p2, db2.rows);
    }
  }

  lemma GroupRowRecovers(size: nat, g: Step, bs: seq<Row>, p: Process, rows: seq<Row>)
    requires g.Group? && HoldsGroup(g, bs, p, rows) && p.status.Runs() && |ClearedRows(bs)| < size
    ensures Recover(size, rows) == (p, |ClearedRows(bs)| + 1)
  {
    hide ClearedRows;
    assert rows == bs + [rows[|bs|]];
    ClearedAppend(bs, rows[|bs|]);
  }

  /** A group that is entered anew, when its first check does not see a pause: it is cleared, and rightly so
      if and only if none of its other checks sees one. */
  lemma PausedGroupIsSkipped(env: Env, wf: Workflow, user: string, i: nat, p: Process, db: Db)
    requires GoodNorm(env.norm) && GoodWorkflow(wf) && Ready(env, wf, i, p, db) && wf.steps[i].Group?
    requires !env.lock(true, db.now)
    ensures
      var g := wf.steps[i];
      var s := StateBefore(wf, ClearedRows(db.rows), i);
      var (p2, db2) := Turn(env, user, g, p, db);
      p2.status.Runs() ==>
        && Recover(|wf.steps|, db2.rows) == (p2, i + 1) && |ClearedRows(db2.rows)| == i + 1
        && (StepPasses(env, wf, g, s, p2.s) <==> !PausedWithin(env, db.now, |Leaves(g)|))
        && (SubStep in p2.s ==> exists k: nat :: PausedAfter(env, wf, g, s, p2.s, k))
  {
    hide Turn, Logged, GroupPasses, ProducedBy;
    var g := wf.steps[i];
    var s := StateBefore(wf, ClearedRows(db.rows), i);
    GroupPassesZero(env, wf, g, s);
    assert AtLeaf(env, wf, g, db.rows, s, s, p.s, 0, db.rows);
    var p2, db2 := RunningGroupIsCleared(env, wf, user, i, db.rows, s, s, p.s, 0, p, db);
  }

  /** Time does not go back in a turn, and it goes on. */
  lemma {:induction false} LeavesTakeTime(env: Env, user: string, g: Step, k: nat, p: Process, db: Db)
    requires g.Group? && k <= |Leaves(g)|
    ensures db.now <= ExecLeaves(env, user, g, k, p, db).1.now
    decreases |Leaves(g)| - k
  {
    hide Logged, Marked;
    if k < |Leaves(g)| && p.status.Runs() && !env.lock(true, db.now) {
      var leaf := Leaves(g)[k];
      var db1 := Called(db, g.group, leaf.info);
      var mark := Marked(g, leaf, k > 0, Outcome(leaf, p.s, db.now));
      LoggedKeepsCalls(env.norm, db1, user, leaf.info, mark);
      var (db2, p2) := Logged(env.norm, db1, user, leaf.info, mark);
      LeavesTakeTime(env, user, g, k + 1, p2, db2);
    }
  }

  lemma TurnTakesTime(env: Env, user: string, step: Step, p: Process, db: Db)
    ensures db.now < Turn(env, user, step, p, db).1.now
  {
    hide Logged, ExecLeaves;
    var s := p.s + map[StartedAt := Num(db.now)];
    if step.Group? {
      LeavesTakeTime(env, user, step, GroupStart(step, s), Process(Success, s), db);
    }
    var (r, db1) := RunStep(env, user, step, s, db);
    LoggedKeepsCalls(env.norm, db1, user, step.Info(), r);
  }

  lemma {:induction false} ExecTakesTime(env: Env, user: string, steps: seq<Step>, i: nat, p: Process, db: Db)
    requires i <= |steps|
    ensures db.now <= Exec(env, user, steps, i, p, db).1.now
    decreases |steps| - i
  {
    hide Turn;
    if i < |steps| && p.status.Runs() && !env.lock(SubStep in p.s, db.now) {
      TurnTakesTime(env, user, steps[i], p, db);
      var (p2, db2) := Turn(env, user, steps[i], p, db);
      ExecTakesTime(env, user, steps, i + 1, p2, db2);
    }
  }

  /** A group that is entered anew, when already its first check sees a pause: no leaf is called, and the
      result is a success that rewrites the row before, under the name that row has. A row that failed is
      cleared by that, so that the group is never entered again. A row that was cleared stays the last one,
      and recovery goes on at the group if the loop stops there; it does exactly when the next check between
      two steps sees a pause too, and else the group is passed over and the step after it is run. */
  lemma PausedAtFirstCheck(env: Env, wf: Workflow, user: string, i: nat, p: Process, db: Db)
    requires GoodNorm(env.norm) && GoodWorkflow(wf) && Ready(env, wf, i, p, db) && wf.steps[i].Group?
    requires env.lock(true, db.now)
    ensures
      var n := |db.rows| - 1;
      var (p2, db2) := Turn(env, user, wf.steps[i], p, db);
      && n >= 0 && |db2.rows| == n + 1 && db2.rows[..n] == db.rows[..n] && db2.rows[n].name == db.rows[n].name
      && p2 == Process(Success, env.norm(Cleaned(p.s))) && SubStep !in p2.s
      && db2.rows[n].status == Success && db2.rows[n].state == p2.s
      && db2.calls == db.calls
      && |ClearedRows(db2.rows)| == (if db.rows[n].status.Errs() then i + 1 else i)
      && Recover(|wf.steps|, db2.rows) == (p2, |ClearedRows(db2.rows)|)
      && i + 1 < |wf.steps|
      && (!env.lock(false, db.now) ==>
            var r := Exec(env, user, wf.steps, i, p, db);
            && (r.1 == db2 <==> env.lock(false, db2.now))
            && (r.1 != db2 ==>
                  var (p3, db3) := Turn(env, user, wf.steps[i + 1], p2, db2);
                  r == Exec(env, user, wf.steps, i + 2, p3, db3)))
  {
    hide Turn, ProducedBy, Cleaned;
    assert db.rows != [];
    PausedTurnLogs(env, user, wf.steps[i], p, db);
    var n := |db.rows| - 1;
    var (p2, db2) := Turn(env, user, wf.steps[i], p, db);
    CleanedStays(env, p.s);
    ClearedLast(db.rows);
    ClearedLast(db2.rows);
    assert db2.rows[..n] == db.rows[..n];
    assert wf.steps[|wf.steps| - 1].Single?;
    StopsIffLocked(env, user, wf.steps, i + 1, p2, db2);
  }

  /** The loop stops before a step exactly when the check between two steps sees a pause. */
  lemma StopsIffLocked(env: Env, user: string, steps: seq<Step>, i: nat, p: Process, db: Db)
    requires i < |steps| && p.status.Runs() && SubStep !in p.s
    ensures
      var r := Exec(env, user, steps, i, p, db);
      && (r.1 == db <==> env.lock(false, db.now))
      && (r.1 != db ==>
            var (p2, db2) := Turn(env, user, steps[i], p, db);
            r == Exec(env, user, steps, i + 1, p2, db2))
  {
    hide Turn;
    TurnTakesTime(env, user, steps[i], p, db);
    var (p2, db2) := Turn(env, user, steps[i], p, db);
    ExecTakesTime(env, user, steps, i + 1, p2, db2);
  }


  lemma PausedTurnLogs(env: Env, user: string, g: Step, p: Process, db: Db)
    requires g.Group? && env.lock(true, db.now) && SubStep !in p.s && db.rows != []
    ensures
      var n := |db.rows| - 1;
      var (p2, db2) := Turn(env, user, g, p, db);
      && |db2.rows| == n + 1 && db2.rows[..n] == db.rows[..n] && db2.rows[n].name == db.rows[n].name
      && p2 == Process(Success, env.norm(Cleaned(p.s)))
      && db2.rows[n].status == Success && db2.rows[n].state == p2.s && db2.calls == db.calls
  {
    hide Logged;
    var extra := map[ReplaceLastState := Flag(true), StartedAt := Num(db.now)];
    var r := Process(Success, p.s + map[StartedAt := Num(db.now)]).With(extra);
    assert r.s == p.s + extra;
    assert RunGroup(env, user, g, p.s + map[StartedAt := Num(db.now)], db) == (r, db);
    LogReplaces(env.norm, db, user, g.group, r);
    LoggedKeepsCalls(env.norm, db, user, g.group, r);
    CleanedBeside(p.s, extra);
  }

  lemma CleanedBeside(s: State, extra: State)
    requires extra.Keys <= {StepNameOverride, ReplaceLastState, StartedAt}
    ensures Cleaned(s + extra) == Cleaned(s)
  {
    var a, b := s - {StepNameOverride} - {ReplaceLastState}, s + extra - {StepNameOverride} - {ReplaceLastState};
    assert Get(a, RemoveKeys) == Get(s, RemoveKeys) == Get(b, RemoveKeys);
    assert Cleaned(s + extra) == Cleaned(s);
  }

  lemma PausedAtOnce(env: Env, user: string, steps: seq<Step>, i: nat, p: Process, db: Db)
    requires i < |steps| && SubStep in p.s && env.lock(true, db.now)
    ensures Exec(env, user, steps, i, p, db) == (p, db)
  {
  }

  /** A group that halted and is resumed, after the resume was logged in a row of its own, which counts as
      cleared. Recovery goes on after the group unless a leaf stops it, and that is right if and only if the
      engine is not paused at one of the checks that are left, the one before the group goes on included. */
  lemma PausedAfterResume(env: Env, wf: Workflow, user: string, merged: State, db: Db)
    requires GoodNorm(env.norm) && GoodWorkflow(wf) && HaltedRows(env, wf, db.rows)
    requires wf.input(db.rows[|db.rows| - 1].state, merged) && wf.steps[|ClearedRows(db.rows)|].Group?
    ensures
      var i := |ClearedRows(db.rows)|;
      var g := wf.steps[i];
      var s := StateBefore(wf, ClearedRows(db.rows), i);
      var (db1, p1) := Logged(env.norm, db, user, g.Info(), Process(Success, merged));
      var (p2, db2) := if env.lock(true, db1.now) then (p1, db1) else Turn(env, user, g, p1, db1);
      && SubStep in p1.s && GroupStart(g, p1.s) < |Leaves(g)|
      && (env.lock(true, db1.now) ==> Exec(env, user, wf.steps, i, p1, db1) == (p1, db1) && db2.calls == db.calls)
      && (p2.status.Runs() ==>
            && Recover(|wf.steps|, db2.rows) == (p2, i + 1) && |ClearedRows(db2.rows)| == i + 1
            && (StepPasses(env, wf, g, s, p2.s)
                <==> !PausedWithin(env, db1.now, |Leaves(g)| - GroupStart(g, p1.s))))
  {
    hide Logged, GroupPasses, Turn, ProducedBy, AtLeaf, GroupStart, Exec, HaltedIn, GoodInput, GoodStep, Level;
    var i := |ClearedRows(db.rows)|;
    var g := wf.steps[i];
    var s := StateBefore(wf, ClearedRows(db.rows), i);
    var k := ResumedAtLeaf(env, wf, user, merged, db);
    var (db1, p1) := Logged(env.norm, db, user, g.Info(), Process(Success, merged));
    if env.lock(true, db1.now) {
      PausedAtOnce(env, user, wf.steps, i, p1, db1);
      ClearedAppend(db.rows, db1.rows[|db.rows|]);
      assert PausedWithin(env, db1.now, |Leaves(g)| - k);
      if StepPasses(env, wf, g, s, p1.s) {
        PassedIsOut(env, wf, g, s, p1.s);
      }
    } else {
      var p2, db2 := RunningGroupIsCleared(env, wf, user, i, db.rows, s, p1.s, p1.s, k, p1, db1);
    }
  }

  /** The resume of a halted group is logged, and the group will go on at leaf `k`. */
  lemma ResumedAtLeaf(env: Env, wf: Workflow, user: string, merged: State, db: Db)
    returns (k: nat)
    requires GoodNorm(env.norm) && GoodWorkflow(wf) && HaltedRows(env, wf, db.rows)
    requires wf.input(db.rows[|db.rows| - 1].state, merged) && wf.steps[|ClearedRows(db.rows)|].Group?
    ensures
      var i := |ClearedRows(db.rows)|;
      var g := wf.steps[i];
      var s := StateBefore(wf, ClearedRows(db.rows), i);
      var (db1, p1) := Logged(env.norm, db, user, g.Info(), Process(Success, merged));
      && p1.status == Success && SubStep in p1.s && SamePlace(merged, p1.s) && db1.calls == db.calls
      && |db1.rows| == |db.rows| + 1 && db1.rows == db.rows + [db1.rows[|db.rows|]]
      && db1.rows[|db.rows|].status == Success && db1.rows[|db.rows|].state == p1.s
      && k < |Leaves(g)| && GroupStart(g, p1.s) == GroupStart(g, p1.s + map[StartedAt := Num(db1.now)]) == k
      && AtLeaf(env, wf, g, db.rows, s, p1.s, p1.s, k, db1.rows)
  {
    hide Logged, HaltsAt, RunsAt, GroupPasses, ProducedBy, Halts, AtLeaf, ResumesTo, GroupStart;
    var i := |ClearedRows(db.rows)|;
    var g := wf.steps[i];
    var s := StateBefore(wf, ClearedRows(db.rows), i);
    HaltedMerges(env, wf, g, s, db.rows[|db.rows| - 1].state, merged);
    HaltedPlace(env, wf, g, s, merged);
    ResumeLogged(env, user, g, merged, db);
    LoggedKeepsCalls(env.norm, db, user, g.Info(), Process(Success, merged));
    var (db1, p1) := Logged(env.norm, db, user, g.Info(), Process(Success, merged));
    var j: nat, c: State :| GroupHaltsAt(env, wf, g, s, merged, j, c);
    GroupGoesOn(env, wf, merged, db.rows, g, s, p1, db1, j, c);
    assert db1.rows == db.rows + [db1.rows[|db.rows|]];
    k := j + 1;
  }

  // ---- a concrete run ---------------------------------------------------------------------------

  const X := Field("x")

  function Leaf0(name: string, status: StepStatus, added: State): Leaf {
    Leaf(StepInfo(name, System), (s: State, t: nat) => Process(status, s + added))
  }

  /** `init >> step_group("g", [a step that sets x]) >> done` */
  function Example(): Workflow {
    Workflow([Single(Leaf0("Start", Success, map[])),
              Group(StepInfo("g", System), [Leaf0("set x", Success, map[X := Flag(true)])]),
              Single(Leaf0("Done", Complete, map[]))],
             map[], (s: State, t: State) => s == t)
  }

  /** The engine is paused at ticks 2 and 3: after "g - Enter", and at the next check between steps. */
  function ExampleEnv(): Env {
    Env((s: State) => s, (midStep: bool, t: nat) => t == 2 || t == 3)
  }

  lemma ExampleIsGood()
    ensures GoodWorkflow(Example()) && GoodNorm(ExampleEnv().norm)
  {
    var g := Example().steps[1];
    assert Leaves(g)[0].info.name == "g - Enter" && Leaves(g)[2].info.name == "g - Exit";
    assert |"g - Enter"| == 9 && |"g - Exit"| == 8 && |"set x"| == 5;
    LeafIsGood("Start", Success, map[]);
    LeafIsGood("set x", Success, map[X := Flag(true)]);
    LeafIsGood("Done", Complete, map[]);
    forall s: State
      ensures s + map[] == s
    {
    }
  }

  lemma LeafIsGood(name: string, status: StepStatus, added: State)
    requires added.Keys <= {X} && !status.Errs()
    ensures GoodLeaf(Leaf0(name, status, added))
  {
    forall s: State, t: nat
      ensures
        var r := Leaf0(name, status, added).run(s, t);
        SamePlace(s, r.s) && (Quiet(s) ==> Quiet(r.s))
    {
      assert Get(s + added, RemoveKeys) == Get(s, RemoveKeys);
    }
  }

  /** A step of the example that succeeds or completes appends its row. */
  lemma ExampleTurn(user: string, step: Step, name: string, status: StepStatus, p: Process, db: Db)
    requires step == Single(Leaf0(name, status, map[])) && !status.Errs()
    requires p.s.Keys <= {StepGroup, SubStep}
    ensures
      var (p2, db2) := Turn(ExampleEnv(), user, step, p, db);
      && p2 == Process(status, p.s) && db2.now == db.now + 1 && db2.proc.lastStatus == Overall(status)
      && |db2.rows| == |db.rows| + 1 && db2.rows[..|db.rows|] == db.rows
      && db2.rows[|db.rows|].status == status && db2.rows[|db.rows|].state == p.s
  {
    var env := ExampleEnv();
    var r := step.leaf.run(p.s + map[StartedAt := Num(db.now)], db.now);
    assert r.s == p.s + map[StartedAt := Num(db.now)];
    LogAppends(env.norm, db, user, step.Info(), r);
    assert Get(r.s - {StepNameOverride} - {ReplaceLastState}, RemoveKeys) == Null;
    assert Cleaned(r.s) == p.s;
  }

  /** The enter step of the example is logged, and then the group stops. */
  lemma ExampleEnters(user: string, db: Db) returns (p1: Process, d1: Db)
    requires db.now == 1
    ensures
      var inside: State := map[StepGroup := Text("g"), SubStep := Text("g - Enter")];
      var s0: State := map[StartedAt := Num(1)];
      && ExecLeaves(ExampleEnv(), user, Example().steps[1], 0, Process(Success, s0), db) == (p1, d1)
      && p1 == Process(Success, inside) && d1.now == 2
      && |d1.rows| == |db.rows| + 1 && d1.rows[..|db.rows|] == db.rows
  {
    hide Logged;
    var env, g := ExampleEnv(), Example().steps[1];
    var s0: State := map[StartedAt := Num(1)];
    var enter := Leaves(g)[0];
    var r := enter.run(s0 + s0, 1);
    var mark := Marked(g, enter, false, r);
    var inside: State := map[StepGroup := Text("g"), SubStep := Text("g - Enter")];
    assert enter.info.name == "g - Enter";
    assert mark.s == inside + map[StartedAt := Num(1), StepNameOverride := Text("g")];
    var db1 := Called(db, g.group, enter.info);
    ExampleLogged(env, db1, user, enter.info, mark, inside, false);
    var l := Logged(env.norm, db1, user, enter.info, mark);
    d1, p1 := l.0, l.1;
    assert ExecLeaves(env, user, g, 1, p1, d1) == (p1, d1);
  }

  /** The group of the example is left after its enter step, with a cleared row. */
  lemma ExampleGroupTurn(user: string, p: Process, db: Db)
    requires p == Process(Success, map[]) && db.now == 1
    ensures
      var (p2, db2) := Turn(ExampleEnv(), user, Example().steps[1], p, db);
      && p2 == Process(Success, map[StepGroup := Text("g"), SubStep := Text("g - Enter")])
      && db2.now == 3 && db2.proc.lastStatus == Running
      && |db2.rows| == |db.rows| + 1 && db2.rows[..|db.rows|] == db.rows
      && db2.rows[|db.rows|].status == Success && db2.rows[|db.rows|].state == p2.s
  {
    hide Logged, ExecLeaves;
    var env, g := ExampleEnv(), Example().steps[1];
    var s0: State := map[StartedAt := Num(1)];
    assert p.s + s0 == s0;
    var p1, d1 := ExampleEnters(user, db);
    var relog := p1.With(map[ReplaceLastState := Flag(true), StartedAt := Num(1)]);
    assert RunGroup(env, user, g, s0, db) == (relog, d1);
    ExampleLogged(env, d1, user, g.Info(), relog, p1.s, true);
  }

  lemma ExampleLogged(env: Env, db: Db, user: string, step: StepInfo, p: Process, s: State, again: bool)
    requires env == ExampleEnv() && p.status == Success && Tidy(env, s)
    requires p.s.Keys <= s.Keys + {StepNameOverride, StartedAt, ReplaceLastState}
    requires p.s - {StepNameOverride, StartedAt, ReplaceLastState} == s
    requires Truthy(Get(p.s, ReplaceLastState)) == again && (again ==> db.rows != [])
    ensures
      var (db2, p2) := Logged(env.norm, db, user, step, p);
      var bs := if again then db.rows[..|db.rows| - 1] else db.rows;
      && p2 == Process(Success, s) && db2.now == db.now + 1 && db2.proc.lastStatus == Running
      && |db2.rows| == |bs| + 1 && db2.rows[..|bs|] == bs
      && db2.rows[|bs|].status == Success && db2.rows[|bs|].state == s
  {
    assert Get(p.s - {StepNameOverride} - {ReplaceLastState}, RemoveKeys) == Null;
    assert Cleaned(p.s) == s;
    LoggedReports(env.norm, db, user, step, p);
    if again {
      LogReplaces(env.norm, db, user, step, p);
    } else {
      LogAppends(env.norm, db, user, step, p);
    }
  }

  /** The first run of the example: it is paused inside the group, and two rows are cleared. */
  lemma ExampleStarts(user: string) returns (d: Db)
    ensures d == Start(ExampleEnv(), Example(), user, NewProcess(false)) && d.proc.lastStatus == Running
    ensures d.now == 3 && ClearedRows(d.rows) == d.rows && |d.rows| == 2
    ensures d.rows[0].status == d.rows[1].status == Success && d.rows[0].state == map[]
    ensures d.rows[1].state == map[StepGroup := Text("g"), SubStep := Text("g - Enter")]
  {
    hide Turn, RunGroup, Logged;
    var env, wf := ExampleEnv(), Example();
    var d0 := SetStatus(NewProcess(false), Running);
    var p0 := Process(Success, map[]);
    ExampleTurn(user, wf.steps[0], "Start", Success, p0, d0);
    var (p1, d1) := Turn(env, user, wf.steps[0], p0, d0);
    ExampleGroupTurn(user, p1, d1);
    var (p2, d2) := Turn(env, user, wf.steps[1], p1, d1);
    assert Exec(env, user, wf.steps, 2, p2, d2) == (p2, d2);
    assert Exec(env, user, wf.steps, 1, p1, d1) == (p2, d2);
    d := d2;
    assert d.rows == [d.rows[0]] + [d.rows[1]];
    ClearedAppend([d.rows[0]], d.rows[1]);
    ClearedAppend([], d.rows[0]);
  }

  /** The pause in the example loses the step that sets x: the process completes without it. */
  lemma PausedGroupIsLost(user: string)
    ensures GoodWorkflow(Example()) && GoodNorm(ExampleEnv().norm)
    ensures
      var d := Life(ExampleEnv(), Example(), user, false, [Restart(user, 1)]);
      d.proc.lastStatus == Completed && forall r | r in d.rows :: X !in r.state
  {
    hide Turn, RunGroup, Logged, Start, ClearedRows;
    ExampleIsGood();
    var env, wf := ExampleEnv(), Example();
    var d2 := ExampleStarts(user);
    var p2 := Process(Success, d2.rows[1].state);
    var d3 := SetStatus(SetStatus(Later(d2, 1), Resumed), Running);
    ExampleTurn(user, wf.steps[2], "Done", Complete, p2, d3);
    var (p4, d4) := Turn(env, user, wf.steps[2], p2, d3);
    assert Exec(env, user, wf.steps, 3, p4, d4) == (p4, d4);
    assert RestartRun(env, wf, user, Later(d2, 1)) == d4;
    var evs := [Restart(user, 1)];
    assert evs[..0] == [];
    assert History(env, wf, evs, d2) == d4;
  }
}
