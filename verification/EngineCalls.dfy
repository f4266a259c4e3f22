/** What is called for a process. Over every history, the calls are passes through the steps in order: some
    that failed and were restarted, then one that went all the way. So without failures every leaf of every
    step is called once. */
module EngineCalls {
  import opened ProcessTypes
  import opened StepLog
  import opened Engine
  import opened EngineHistory
  import opened EngineInvariant
  import opened EngineTheorems
  import EngineGroups

  // ---- passes -------------------------------------------------------------------------------------

  /** A pass through a step that called its first `entered` leaves, and failed or passed the step. */
  datatype Pass = Pass(step: nat, entered: nat, failed: bool)

  predicate IsPass(steps: seq<Step>, x: Pass) {
    x.step < |steps| && 0 < x.entered <= |CallsOf(steps[x.step])|
    && (!x.failed ==> x.entered == |CallsOf(steps[x.step])|)
  }

  /** The passes take the steps in order and have passed the first `i`: each of them after any number of
      passes that failed, and so far only failing passes through the next one. */
  predicate InOrder(steps: seq<Step>, ps: seq<Pass>, i: nat) {
    if ps == [] then i == 0
    else
      var n := |ps| - 1;
      && IsPass(steps, ps[n])
      && if ps[n].failed then ps[n].step == i && InOrder(steps, ps[..n], i)
         else i > 0 && ps[n].step == i - 1 && InOrder(steps, ps[..n], i - 1)
  }

  function PassCalls(steps: seq<Step>, x: Pass): seq<Call> {
    if IsPass(steps, x) then CallsOf(steps[x.step])[..x.entered] else []
  }

  /** The calls of the passes, one after the other. */
  function CallsIn(steps: seq<Step>, ps: seq<Pass>): seq<Call> {
    if ps == [] then [] else CallsIn(steps, ps[..|ps| - 1]) + PassCalls(steps, ps[|ps| - 1])
  }

  /** How many of the passes failed. */
  function FailedIn(ps: seq<Pass>): nat {
    if ps == [] then 0
    else
      var n := |ps| - 1;
      FailedIn(ps[..n]) + if ps[n].failed then 1 else 0
  }

  /** All calls of the first `i` steps, each leaf once, in order. */
  function AllCalls(steps: seq<Step>, i: nat): seq<Call>
    requires i <= |steps|
  {
    if i == 0 then [] else AllCalls(steps, i - 1) + CallsOf(steps[i - 1])
  }

  lemma WholePass(steps: seq<Step>, x: Pass)
    requires IsPass(steps, x) && !x.failed
    ensures PassCalls(steps, x) == CallsOf(steps[x.step])
  {
  }

  /** Without a failing pass every step was passed once. */
  lemma {:induction false} PassesAreAllCalls(steps: seq<Step>, ps: seq<Pass>, i: nat)
    requires InOrder(steps, ps, i) && FailedIn(ps) == 0
    ensures i <= |steps| && |ps| == i && CallsIn(steps, ps) == AllCalls(steps, i)
  {
    hide CallsOf, PassCalls;
    if ps != [] {
      var n := |ps| - 1;
      WholePass(steps, ps[n]);
      PassesAreAllCalls(steps, ps[..n], i - 1);
    }
  }

  // ---- the calls of a process ---------------------------------------------------------------------

  /** How many leaves of the step the pass that is under way has called, when it stopped in this state. */
  function Place(step: Step, s: State): nat {
    if step.Single? then 1 else GroupStart(step, s)
  }

  /** The calls are those of the passes, which have passed `i` steps, and then the first `k` of the next. */
  ghost predicate Accounted(steps: seq<Step>, ps: seq<Pass>, i: nat, k: nat, calls: seq<Call>) {
    && InOrder(steps, ps, i)
    && (if i < |steps| then k <= |CallsOf(steps[i])| else k == 0)
    && calls == CallsIn(steps, ps) + if i < |steps| then CallsOf(steps[i])[..k] else []
  }

  /** How many steps the rows say were passed. */
  function Passed(rows: seq<Row>): nat {
    if rows == [] then 0
    else
      var n := |rows| - 1;
      Passed(rows[..n]) + if rows[n].status.Runs() then 1 else 0
  }

  /** The calls of a process are explained by its rows: as many steps are passed as rows say so. A pass is
      under way when the process waits for input or for a callback, and the last pass stays where it is
      when the process ends. */
  ghost predicate Explains(wf: Workflow, ps: seq<Pass>, db: Db) {
    var i := Passed(db.rows);
    if db.rows == [] then Accounted(wf.steps, ps, i, 0, db.calls)
    else
      var last := db.rows[|db.rows| - 1];
      if last.status.Halts() then i < |wf.steps| && Accounted(wf.steps, ps, i, Place(wf.steps[i], last.state), db.calls)
      else if last.status.Ends()
      then exists k: nat :: Accounted(wf.steps, ps, i, k, db.calls) && (last.status == Complete ==> 0 < k)
      else Accounted(wf.steps, ps, i, 0, db.calls)
  }

  /** One more pass. */
  lemma OneMorePass(steps: seq<Step>, ps: seq<Pass>, i: nat, k: nat, calls: seq<Call>, failed: bool)
    returns (more: seq<Pass>)
    requires Accounted(steps, ps, i, k, calls) && i < |steps| && 0 < k
    requires !failed ==> k == |CallsOf(steps[i])|
    ensures Accounted(steps, more, if failed then i else i + 1, 0, calls)
    ensures FailedIn(more) == FailedIn(ps) + if failed then 1 else 0
  {
    more := ps + [Pass(i, k, failed)];
    assert more[..|ps|] == ps;
    assert CallsIn(steps, more) == calls;
    assert forall c: seq<Call> :: c + [] == c;
    var j := if failed then i else i + 1;
    if j < |steps| {
      assert CallsOf(steps[j])[..0] == [];
    }
  }

  // ---- turns --------------------------------------------------------------------------------------

  /** A pass that had called `k` leaves has called `e` of them, in order, and stopped as `p`. */
  ghost predicate CallsMore(step: Step, k: nat, e: nat, before: seq<Call>, p: Process, after: seq<Call>) {
    && k <= e <= |CallsOf(step)| && 0 < e && after == before + CallsOf(step)[k..e]
    && (p.status.Runs() ==> e == |CallsOf(step)|)
    && (p.status.Halts() ==> e == Place(step, p.s))
  }

  lemma SingleTurnCalls(env: Env, user: string, step: Step, p: Process, db: Db)
    requires step.Single?
    ensures
      var (p2, db2) := Turn(env, user, step, p, db);
      CallsMore(step, 0, 1, db.calls, p2, db2.calls)
  {
    hide Logged;
    var s := p.s + map[StartedAt := Num(db.now)];
    var (r, db1) := RunStep(env, user, step, s, db);
    LoggedKeepsCalls(env.norm, db1, user, step.Info(), r);
    assert CallsOf(step)[0..1] == CallsOf(step);
  }

  /** Where a group stands tells how many of its leaves were called. */
  lemma InGroupPlace(g: Step, k: nat, s: State)
    requires g.Group? && GoodStep(g) && 0 < k < |Leaves(g)| && InGroup(g, k, s)
    ensures Place(g, s) == k && GroupStart(g, s) == k
  {
    AfterFinds(Leaves(g), k - 1);
  }

  lemma GroupTurnCalls(env: Env, wf: Workflow, user: string, g: Step, bs: seq<Row>, s: State, c: State, k: nat,
                       p: Process, db: Db)
    returns (e: nat)
    requires GoodEnv(env) && GoodInput(wf.input) && g.Group? && GoodStep(g) && k < |Leaves(g)|
    requires GroupStart(g, p.s + map[StartedAt := Num(db.now)]) == k && AtLeaf(env, wf, g, bs, s, c, p.s, k, db.rows)
    ensures
      var (p2, db2) := Turn(env, user, g, p, db);
      CallsMore(g, k, e, db.calls, p2, db2.calls)
  {
    hide Logged, ExecLeaves, AtLeaf, GroupStart, GroupStops, GoodStep;
    var s0 := p.s + map[StartedAt := Num(db.now)];
    assert s0 + map[StartedAt := Num(db.now)] == p.s + map[StartedAt := Num(db.now)];
    e := GroupEnds(env, wf, user, g, bs, s, c, p.s, k, Process(Success, s0), db);
    var r := ExecLeaves(env, user, g, k, Process(Success, s0), db);
    var p2, db2 := GroupRuns(env, wf, user, g, bs, s, c, p.s, k, s0, db);
    if p2.status.Halts() {
      InGroupPlace(g, e, p2.s);
    }
  }

  lemma MoreCalls(steps: seq<Step>, ps: seq<Pass>, i: nat, k: nat, e: nat, before: seq<Call>, p: Process,
                  after: seq<Call>)
    requires i < |steps| && Accounted(steps, ps, i, k, before) && CallsMore(steps[i], k, e, before, p, after)
    ensures Accounted(steps, ps, i, e, after)
  {
    hide CallsOf, InOrder, CallsIn;
    var calls := CallsOf(steps[i]);
    assert calls[..k] + calls[k..e] == calls[..e];
    assert after == CallsIn(steps, ps) + calls[..e];
  }

  lemma {:induction false} TracePassed(env: Env, wf: Workflow, rows: seq<Row>)
    requires Trace(env, wf, ClearedRows(rows))
    ensures Passed(rows) == |ClearedRows(rows)|
  {
    hide StepPasses;
    if rows != [] {
      var n := |rows| - 1;
      var cs := ClearedRows(rows);
      var bs := ClearedRows(rows[..n]);
      ClearedLast(rows);
      assert bs == cs[..|bs|];
      forall i | 0 <= i < |bs|
        ensures ProducedBy(env, wf, bs, i)
      {
        assert ProducedBy(env, wf, cs, i) && StateBefore(wf, bs, i) == StateBefore(wf, cs, i);
      }
      TracePassed(env, wf, rows[..n]);
      if rows[n].status.Cleared() {
        assert ProducedBy(env, wf, cs, |cs| - 1);
      }
    }
  }

  ghost predicate Failing(db: Db) {
    db.rows != [] && db.rows[|db.rows| - 1].status.Errs()
  }

  /** A failing pass is added only when the last row now says so. */
  ghost predicate FailsOnce(ps: seq<Pass>, qs: seq<Pass>, db: Db) {
    FailedIn(qs) <= FailedIn(ps) + if Failing(db) then 1 else 0
  }

  /** A turn of the loop was logged, and the pass through its step has called `e` leaves. */
  lemma StepAccounted(env: Env, wf: Workflow, i: nat, bs: seq<Row>, p: Process, db: Db, ps: seq<Pass>, e: nat)
    returns (qs: seq<Pass>)
    requires i < |wf.steps| && StepLogged(env, wf, i, bs, p, db) && Trace(env, wf, ClearedRows(bs))
    requires Accounted(wf.steps, ps, i, e, db.calls) && 0 < e
    requires p.status.Runs() ==> e == |CallsOf(wf.steps[i])|
    requires p.status.Halts() ==> e == Place(wf.steps[i], p.s)
    ensures FailsOnce(ps, qs, db)
    ensures if p.status.Runs() then Accounted(wf.steps, qs, i + 1, 0, db.calls) && FailedIn(qs) == FailedIn(ps)
            else Explains(wf, qs, db)
  {
    hide StepPasses, HaltedIn, Accounted, FailedIn, Trace, Place, CallsOf;
    TracePassed(env, wf, bs);
    qs := ps;
    if p.status.Runs() || p.status.Errs() {
      qs := OneMorePass(wf.steps, ps, i, e, db.calls, p.status.Errs());
    } else {
      assert Passed(db.rows) == i;
      assert Accounted(wf.steps, ps, Passed(db.rows), e, db.calls);
    }
  }

  /** The step loop. */
  lemma {:induction false} ExecAccounts(env: Env, wf: Workflow, user: string, i: nat, p: Process, db: Db, ps: seq<Pass>)
    returns (qs: seq<Pass>)
    requires GoodEnv(env) && GoodWorkflow(wf) && Ready(env, wf, i, p, db) && Accounted(wf.steps, ps, i, 0, db.calls)
    ensures
      var d := Exec(env, user, wf.steps, i, p, db).1;
      Explains(wf, qs, d) && FailsOnce(ps, qs, d)
    decreases |wf.steps| - i
  {
    hide Turn, Trace, Accounted, StepPasses, HaltedIn, FailedIn, StepLogged, CallsOf, Place;
    qs := ps;
    if env.lock(false, db.now) {
      TracePassed(env, wf, db.rows);
    } else {
      var e := FreshTurnCalls(env, wf, user, i, p, db);
      var bs, p2, db2 := StepTurn(env, wf, user, i, p, db);
      MoreCalls(wf.steps, ps, i, 0, e, db.calls, p2, db2.calls);
      qs := StepAccounted(env, wf, i, bs, p2, db2, ps, e);
      AfterStep(env, wf, i, bs, p2, db2);
      if p2.status.Runs() {
        qs := ExecAccounts(env, wf, user, i + 1, p2, db2, qs);
      }
    }
  }

  lemma FreshTurnCalls(env: Env, wf: Workflow, user: string, i: nat, p: Process, db: Db)
    returns (e: nat)
    requires GoodEnv(env) && GoodWorkflow(wf) && Ready(env, wf, i, p, db)
    ensures
      var (p2, db2) := Turn(env, user, wf.steps[i], p, db);
      CallsMore(wf.steps[i], 0, e, db.calls, p2, db2.calls)
  {
    hide Turn, GroupPasses, CallsMore, Trace;
    var g := wf.steps[i];
    if g.Single? {
      SingleTurnCalls(env, user, g, p, db);
      e := 1;
    } else {
      var s := StateBefore(wf, ClearedRows(db.rows), i);
      GroupPassesZero(env, wf, g, s);
      assert AtLeaf(env, wf, g, db.rows, s, s, p.s, 0, db.rows);
      e := GroupTurnCalls(env, wf, user, g, db.rows, s, s, 0, p, db);
    }
  }

  // ---- resuming -----------------------------------------------------------------------------------

  lemma SamePlaces(step: Step, s: State, m: State)
    requires SamePlace(s, m)
    ensures Place(step, s) == Place(step, m)
  {
    hide After;
    if SubStep in s {
      assert Get(s, SubStep) == s[SubStep] && Get(m, SubStep) == m[SubStep];
    }
  }

  /** A step that has halted has called at least one leaf; a single step has called its only one. */
  lemma HaltedCalled(env: Env, wf: Workflow, step: Step, s: State, h: State)
    requires GoodStep(step) && HaltedIn(env, wf, step, s, h)
    ensures 0 < Place(step, h) && (step.Single? ==> Place(step, h) == |CallsOf(step)|)
  {
    hide GroupPasses, Halts, GoodLeaf;
    if step.Group? {
      var k: nat, c: State :| GroupHaltsAt(env, wf, step, s, h, k, c);
      InGroupPlace(step, k + 1, h);
    }
  }

  /** A halted process is resumed: a single step is passed by that, a group calls its next leaves. */
  lemma ResumeAccounts(env: Env, wf: Workflow, user: string, merged: State, db: Db, ps: seq<Pass>)
    returns (qs: seq<Pass>)
    requires GoodEnv(env) && GoodWorkflow(wf) && HaltedRows(env, wf, db.rows) && Explains(wf, ps, db)
    requires wf.input(db.rows[|db.rows| - 1].state, merged)
    ensures
      var i := |ClearedRows(db.rows)|;
      var (db', p) := Logged(env.norm, db, user, wf.steps[i].Info(), Process(Success, merged));
      var d := Exec(env, user, wf.steps, if StepGroup in merged then i else i + 1, p, db').1;
      Explains(wf, qs, d) && FailsOnce(ps, qs, d)
  {
    hide Logged, Exec, HaltedIn, StepPasses, Accounted, CallsOf, Place, Trace, FailedIn, GoodStep;
    var i := |ClearedRows(db.rows)|;
    var step := wf.steps[i];
    var s := StateBefore(wf, ClearedRows(db.rows), i);
    var last := db.rows[|db.rows| - 1].state;
    TracePassed(env, wf, db.rows);
    HaltedCalled(env, wf, step, s, last);
    HaltedMerges(env, wf, step, s, last, merged);
    HaltedPlace(env, wf, step, s, merged);
    if step.Single? {
      ResumeLogged(env, user, step, merged, db);
      LoggedKeepsCalls(env.norm, db, user, step.Info(), Process(Success, merged));
      var (db1, p1) := Logged(env.norm, db, user, step.Info(), Process(Success, merged));
      ResumedSingle(env, wf, merged, db.rows, i, p1, db1);
      qs := OneMorePass(wf.steps, ps, i, Place(step, last), db.calls, false);
      qs := ExecAccounts(env, wf, user, i + 1, p1, db1, qs);
    } else {
      SamePlaces(step, last, merged);
      qs := ResumedGroupAccounts(env, wf, user, merged, db, ps);
    }
  }

  /** The turn of the loop that goes on with a group that had halted. */
  lemma ResumedGroupLogged(env: Env, wf: Workflow, user: string, merged: State, db: Db)
    returns (p2: Process, db2: Db)
    requires GoodEnv(env) && GoodWorkflow(wf) && HaltedRows(env, wf, db.rows)
    requires wf.input(db.rows[|db.rows| - 1].state, merged) && wf.steps[|ClearedRows(db.rows)|].Group?
    ensures
      var i := |ClearedRows(db.rows)|;
      var (db1, p1) := Logged(env.norm, db, user, wf.steps[i].Info(), Process(Success, merged));
      && (p2, db2) == Turn(env, user, wf.steps[i], p1, db1) && StepLogged(env, wf, i, db.rows, p2, db2)
      && (Exec(env, user, wf.steps, i, p1, db1)
          == if p2.status.Runs() then Exec(env, user, wf.steps, i + 1, p2, db2) else (p2, db2))
  {
    hide Logged, Turn, StepPasses, GroupPasses, Halts, Trace, StepLogged, GoodStep, GroupHaltsAt;
    var i := |ClearedRows(db.rows)|;
    var step := wf.steps[i];
    var s := StateBefore(wf, ClearedRows(db.rows), i);
    HaltedMerges(env, wf, step, s, db.rows[|db.rows| - 1].state, merged);
    HaltedPlace(env, wf, step, s, merged);
    ResumeLogged(env, user, step, merged, db);
    var (db1, p1) := Logged(env.norm, db, user, step.Info(), Process(Success, merged));
    var k: nat, c: State :| GroupHaltsAt(env, wf, step, s, merged, k, c);
    p2, db2 := ResumedGroup(env, wf, user, merged, db.rows, i, p1, db1, k, c);
  }

  lemma ResumedGroupAccounts(env: Env, wf: Workflow, user: string, merged: State, db: Db, ps: seq<Pass>)
    returns (qs: seq<Pass>)
    requires GoodEnv(env) && GoodWorkflow(wf) && HaltedRows(env, wf, db.rows)
    requires wf.input(db.rows[|db.rows| - 1].state, merged)
    requires wf.steps[|ClearedRows(db.rows)|].Group?
    requires var i := |ClearedRows(db.rows)|; Accounted(wf.steps, ps, i, Place(wf.steps[i], merged), db.calls)
    ensures
      var i := |ClearedRows(db.rows)|;
      var (db', p) := Logged(env.norm, db, user, wf.steps[i].Info(), Process(Success, merged));
      var d := Exec(env, user, wf.steps, i, p, db').1;
      Explains(wf, qs, d) && FailsOnce(ps, qs, d)
  {
    hide Logged, Exec, HaltedIn, StepPasses, Accounted, CallsOf, Trace, FailedIn, GoodStep, GroupStart, AtLeaf;
    var i := |ClearedRows(db.rows)|;
    var g := wf.steps[i];
    var s := StateBefore(wf, ClearedRows(db.rows), i);
    var (db1, p1) := Logged(env.norm, db, user, g.Info(), Process(Success, merged));
    var k := EngineGroups.ResumedAtLeaf(env, wf, user, merged, db);
    SamePlaces(g, merged, p1.s);
    var e := GroupTurnCalls(env, wf, user, g, db.rows, s, p1.s, k, p1, db1);
    var (p2, db2) := Turn(env, user, g, p1, db1);
    MoreCalls(wf.steps, ps, i, k, e, db1.calls, p2, db2.calls);
    var _, _ := ResumedGroupLogged(env, wf, user, merged, db);
    qs := StepAccounted(env, wf, i, db.rows, p2, db2, ps, e);
    AfterStep(env, wf, i, db.rows, p2, db2);
    if p2.status.Runs() {
      qs := ExecAccounts(env, wf, user, i + 1, p2, db2, qs);
    }
  }

  lemma RunAccounts(env: Env, wf: Workflow, user: string, merged: State, db: Db, ps: seq<Pass>)
    returns (qs: seq<Pass>)
    requires GoodEnv(env) && GoodWorkflow(wf) && MergedFrom(wf, db.rows, merged) && Explains(wf, ps, db)
    requires IdleRows(env, wf, db.rows) || HaltedRows(env, wf, db.rows)
    ensures
      var d := ResumeRun(env, wf, user, merged, db);
      Explains(wf, qs, d) && FailsOnce(ps, qs, d)
  {
    hide Logged, Exec, Accounted, FailedIn, HaltedIn, ProducedBy, GoodStep;
    var cs := ClearedRows(db.rows);
    var db1 := SetStatus(db, Running);
    if IdleRows(env, wf, db.rows) {
      RecoverIdle(env, wf, db.rows);
      LevelBefore(env, wf, cs, |cs|);
      TracePassed(env, wf, db.rows);
      qs := ExecAccounts(env, wf, user, |cs|, Process(Success, merged), db1, ps);
    } else {
      RecoverHalted(env, wf, db.rows);
      qs := ResumeAccounts(env, wf, user, merged, db1, ps);
    }
  }

  // ---- every event --------------------------------------------------------------------------------

  lemma ReplacedPassed(rows: seq<Row>, last: Row)
    requires rows != [] && last.status == rows[|rows| - 1].status
    ensures Passed(rows[|rows| - 1 := last]) == Passed(rows)
  {
    var n := |rows| - 1;
    assert rows[n := last][..n] == rows[..n];
  }

  /** Data stored in the state of a waiting step leaves the pass where it is. */
  lemma ReplaceAccounts(env: Env, wf: Workflow, s: State, db: Db, ps: seq<Pass>)
    requires GoodWorkflow(wf) && HaltedRows(env, wf, db.rows) && wf.input(db.rows[|db.rows| - 1].state, s)
    requires Explains(wf, ps, db)
    ensures Explains(wf, ps, ReplaceState(db, s))
  {
    hide Accounted, Place, Trace, HaltedIn, GoodStep;
    var n := |db.rows| - 1;
    ReplacedPassed(db.rows, db.rows[n].(state := s));
    SamePlaces(wf.steps[Passed(db.rows)], db.rows[n].state, s);
  }

  /** A timeout ends the pass that waits as a failing one. */
  lemma TimeoutAccounts(env: Env, wf: Workflow, reason: string, db: Db, ps: seq<Pass>)
    returns (qs: seq<Pass>)
    requires GoodWorkflow(wf) && GoodDb(env, wf, db) && Explains(wf, ps, db)
    ensures
      var d := FailAwaitingWf(env, wf, reason, db);
      Explains(wf, qs, d) && FailsOnce(ps, qs, d)
  {
    hide Logged, Accounted, Place, Trace, HaltedIn, FailedIn, GoodStep, IdleRows;
    qs := ps;
    var n := |db.rows| - 1;
    if HaltedRows(env, wf, db.rows) && db.rows[n].status == AwaitingCallback {
      RecoverHalted(env, wf, db.rows);
      var step := StepInfo(reason, Nobody);
      var failed := Process(Failed, db.rows[n].state + map[ErrorText := Text(reason), ReplaceLastState := Flag(true)]);
      LogReplaces(env.norm, db, SYSTEM_USER, step, failed);
      LoggedKeepsCalls(env.norm, db, SYSTEM_USER, step, failed);
      var d := Logged(env.norm, db, SYSTEM_USER, step, failed).0;
      assert d.rows[..n] == db.rows[..n];
      var i := |ClearedRows(db.rows)|;
      TracePassed(env, wf, db.rows);
      HaltedCalled(env, wf, wf.steps[i], StateBefore(wf, ClearedRows(db.rows), i), db.rows[n].state);
      qs := OneMorePass(wf.steps, ps, i, Place(wf.steps[i], db.rows[n].state), db.calls, true);
    } else {
      AwaitingIsLast(env, wf, db);
    }
  }

  /** Only a process whose last row awaits a callback recovers as one that does. */
  lemma AwaitingIsLast(env: Env, wf: Workflow, db: Db)
    requires GoodDb(env, wf, db)
    ensures Recover(|wf.steps|, db.rows).0.status == AwaitingCallback ==>
              HaltedRows(env, wf, db.rows) && db.rows[|db.rows| - 1].status == AwaitingCallback
  {
    if IdleRows(env, wf, db.rows) {
      RecoverIdle(env, wf, db.rows);
    } else if HaltedRows(env, wf, db.rows) {
      RecoverHalted(env, wf, db.rows);
    } else {
      RecoverEnded(|wf.steps|, db.rows);
    }
  }

  lemma ExplainedUpTo(wf: Workflow, ps: seq<Pass>, db: Db) returns (k: nat)
    requires Explains(wf, ps, db)
    ensures Accounted(wf.steps, ps, Passed(db.rows), k, db.calls)
    ensures
      if db.rows == [] || db.rows[|db.rows| - 1].status.Runs() then k == 0
      else
        var last := db.rows[|db.rows| - 1];
        && (last.status.Halts() ==> Passed(db.rows) < |wf.steps| && k == Place(wf.steps[Passed(db.rows)], last.state))
        && (last.status == Complete ==> 0 < k)
  {
    hide Accounted, Place;
    var i := Passed(db.rows);
    k := 0;
    if db.rows != [] {
      var last := db.rows[|db.rows| - 1];
      if last.status.Halts() {
        k := Place(wf.steps[i], last.state);
      } else if last.status.Ends() {
        k :| Accounted(wf.steps, ps, i, k, db.calls) && (last.status == Complete ==> 0 < k);
      }
    }
  }

  /** An abort calls nothing. */
  lemma AbortAccounts(env: Env, wf: Workflow, user: string, db: Db, ps: seq<Pass>)
    requires GoodEnv(env) && GoodWorkflow(wf) && GoodDb(env, wf, db) && Explains(wf, ps, db)
    ensures Explains(wf, ps, AbortWf(env, wf, user, db))
  {
    hide Logged, Trace, GoodRows, GoodStep, Accounted, Place;
    var k := ExplainedUpTo(wf, ps, db);
    var p := Recover(|wf.steps|, db.rows).0;
    if p.status != Complete {
      var _ := RecoversQuietly(env, wf, db);
      AbortLogged(env, user, p.s, db);
      LoggedKeepsCalls(env.norm, db, user, StepInfo("User Aborted", Nobody), p.Aborting());
      var d := AbortWf(env, wf, user, db);
      assert Accounted(wf.steps, ps, Passed(d.rows), k, d.calls);
    }
  }

  lemma HappenAccounts(env: Env, wf: Workflow, ev: Event, db: Db, ps: seq<Pass>)
    returns (qs: seq<Pass>)
    requires GoodEnv(env) && GoodWorkflow(wf) && GoodDb(env, wf, db) && Explains(wf, ps, db)
    ensures
      var d := Happen(env, wf, ev, db);
      Explains(wf, qs, d) && FailsOnce(ps, qs, d)
  {
    hide ResumeRun, Explains, GoodRows, FailAwaitingWf, AbortWf, FailedIn;
    qs := ps;
    GoodDbKinds(env, wf, db);
    if Enabled(wf, ev, db) {
      match ev
      case Resume(user, merged, _) => qs := RunAccounts(env, wf, user, merged, db, ps);
      case Restart(user, _) =>
        var merged := if db.rows == [] then wf.initial else Recover(|wf.steps|, db.rows).0.s;
        StatusAccounts(wf, ps, db, Resumed);
        qs := RunAccounts(env, wf, user, merged, SetStatus(db, Resumed), ps);
      case Callback(_, user, data, merged, _) =>
        RecoverHalted(env, wf, db.rows);
        var s := CallbackState(db.rows[|db.rows| - 1].state, data);
        ReplaceAccounts(env, wf, s, db, ps);
        ReplaceKeeps(env, wf, s, db);
        RecoverHalted(env, wf, ReplaceState(db, s).rows);
        qs := RunAccounts(env, wf, user, merged, ReplaceState(db, s), ps);
      case Progress(_, data, _) =>
        RecoverHalted(env, wf, db.rows);
        ReplaceAccounts(env, wf, ProgressState(db.rows[|db.rows| - 1].state, data), db, ps);
      case Timeout(reason, _) => qs := TimeoutAccounts(env, wf, reason, db, ps);
      case UserAbort(user, _) => AbortAccounts(env, wf, user, db, ps);
    }
  }

  lemma StatusAccounts(wf: Workflow, ps: seq<Pass>, db: Db, status: ProcessStatus)
    requires Explains(wf, ps, db)
    ensures Explains(wf, ps, SetStatus(db, status))
  {
  }

  /** After how many events of a history, the start included, the process is failing or waiting to retry. */
  ghost function Failures(env: Env, wf: Workflow, user: string, isTask: bool, events: seq<Event>): nat {
    (if events == [] then 0 else Failures(env, wf, user, isTask, events[..|events| - 1]))
    + if Failing(Life(env, wf, user, isTask, events)) then 1 else 0
  }

  /** Main theorem: all that was called for a process, whatever happened to it, is a sequence of passes
      through its steps in order. Each step is passed once; a pass is repeated from its first leaf only when
      it failed, and no event adds more than one failing pass. */
  lemma {:induction false} HistoryIsAccounted(env: Env, wf: Workflow, user: string, isTask: bool, events: seq<Event>)
    returns (ps: seq<Pass>)
    requires GoodEnv(env) && GoodWorkflow(wf)
    ensures Explains(wf, ps, Life(env, wf, user, isTask, events))
    ensures FailedIn(ps) <= Failures(env, wf, user, isTask, events)
  {
    hide Exec, Explains, Happen, GoodDb, Ready;
    if events == [] {
      var db := SetStatus(NewProcess(isTask), Running);
      ps := [];
      NothingCalled(env, wf, isTask);
      ps := ExecAccounts(env, wf, user, 0, Process(Success, wf.initial), db, []);
    } else {
      var n := |events| - 1;
      ps := HistoryIsAccounted(env, wf, user, isTask, events[..n]);
      var before := HistoryKeeps(env, wf, user, isTask, events[..n]);
      LaterAccounts(env, wf, before, events[n].later, ps);
      ps := HappenAccounts(env, wf, events[n], Later(before, events[n].later), ps);
    }
  }

  lemma LaterAccounts(env: Env, wf: Workflow, db: Db, ticks: nat, ps: seq<Pass>)
    requires GoodDb(env, wf, db) && Explains(wf, ps, db)
    ensures GoodDb(env, wf, Later(db, ticks)) && Explains(wf, ps, Later(db, ticks))
  {
  }

  lemma NothingCalled(env: Env, wf: Workflow, isTask: bool)
    requires GoodWorkflow(wf)
    ensures
      var db := SetStatus(NewProcess(isTask), Running);
      Accounted(wf.steps, [], 0, 0, db.calls) && Ready(env, wf, 0, Process(Success, wf.initial), db)
  {
    assert CallsOf(wf.steps[0])[..0] == [];
  }

  lemma {:induction false} CallsGrow(steps: seq<Step>, i: nat, j: nat)
    requires i <= j <= |steps|
    ensures AllCalls(steps, i) <= AllCalls(steps, j)
  {
    hide CallsOf;
    if i < j {
      CallsGrow(steps, i, j - 1);
    }
  }

  lemma OnTheWay(steps: seq<Step>, i: nat, k: nat)
    requires i < |steps| && k <= |CallsOf(steps[i])|
    ensures AllCalls(steps, i) + CallsOf(steps[i])[..k] <= AllCalls(steps, |steps|)
  {
    hide CallsOf;
    CallsGrow(steps, i + 1, |steps|);
    assert AllCalls(steps, i) + CallsOf(steps[i])[..k] <= AllCalls(steps, i + 1);
  }

  /** No leaf was called twice and none was left out: the calls are the first of all calls, up to the program
      counter between two steps, up to where the process waits inside a step, and all of them when the
      process completes in its last step. */
  ghost predicate CalledOnce(wf: Workflow, db: Db) {
    var i := Passed(db.rows);
    && i <= |wf.steps| && AllCalls(wf.steps, i) <= db.calls <= AllCalls(wf.steps, |wf.steps|)
    && if db.rows == [] || db.rows[|db.rows| - 1].status.Runs() then db.calls == AllCalls(wf.steps, i)
       else
         var last := db.rows[|db.rows| - 1];
         && (last.status.Halts() ==>
               && i < |wf.steps| && Place(wf.steps[i], last.state) <= |CallsOf(wf.steps[i])|
               && db.calls == AllCalls(wf.steps, i) + CallsOf(wf.steps[i])[..Place(wf.steps[i], last.state)])
         && (last.status == Complete && i == |wf.steps| - 1 ==> db.calls == AllCalls(wf.steps, |wf.steps|))
  }

  /** Without failing passes the calls are those of the steps passed, and the first `k` of the next. */
  lemma CalledUpTo(wf: Workflow, ps: seq<Pass>, i: nat, k: nat, calls: seq<Call>)
    requires Accounted(wf.steps, ps, i, k, calls) && FailedIn(ps) == 0
    ensures i <= |wf.steps| && AllCalls(wf.steps, i) <= calls <= AllCalls(wf.steps, |wf.steps|)
    ensures
      if i < |wf.steps|
      then k <= |CallsOf(wf.steps[i])| && calls == AllCalls(wf.steps, i) + CallsOf(wf.steps[i])[..k]
      else calls == AllCalls(wf.steps, i)
  {
    hide CallsOf, AllCalls, CallsIn, InOrder, FailedIn;
    PassesAreAllCalls(wf.steps, ps, i);
    if i < |wf.steps| {
      OnTheWay(wf.steps, i, k);
    } else {
      assert AllCalls(wf.steps, i) + [] == AllCalls(wf.steps, i);
    }
  }

  /** The last step of a workflow has one leaf. */
  lemma LastIsAll(steps: seq<Step>, k: nat)
    requires steps != [] && steps[|steps| - 1].Single? && 0 < k <= |CallsOf(steps[|steps| - 1])|
    ensures
      var n := |steps| - 1;
      AllCalls(steps, n) + CallsOf(steps[n])[..k] == AllCalls(steps, |steps|)
  {
    var n := |steps| - 1;
    assert CallsOf(steps[n])[..k] == CallsOf(steps[n]);
  }

  lemma ExplainedCalls(wf: Workflow, ps: seq<Pass>, db: Db)
    requires Explains(wf, ps, db) && FailedIn(ps) == 0
    requires wf.steps != [] && wf.steps[|wf.steps| - 1].Single?
    ensures CalledOnce(wf, db)
  {
    hide Place, CallsOf, AllCalls, Accounted, FailedIn, Explains, Passed;
    var i := Passed(db.rows);
    var k := ExplainedUpTo(wf, ps, db);
    CalledUpTo(wf, ps, i, k, db.calls);
    if i == |wf.steps| - 1 && k > 0 {
      LastIsAll(wf.steps, k);
    }
    if k == 0 && i < |wf.steps| {
      assert CallsOf(wf.steps[i])[..0] == [];
      assert AllCalls(wf.steps, i) + [] == AllCalls(wf.steps, i);
    }
  }

  /** Without failures every leaf of every step is called once, in order. */
  lemma EachLeafOnce(env: Env, wf: Workflow, user: string, isTask: bool, events: seq<Event>)
    requires GoodEnv(env) && GoodWorkflow(wf) && Failures(env, wf, user, isTask, events) == 0
    ensures CalledOnce(wf, Life(env, wf, user, isTask, events))
  {
    hide Life, Explains, CalledOnce, GoodEnv, GoodStep, GoodInput;
    var ps := HistoryIsAccounted(env, wf, user, isTask, events);
    ExplainedCalls(wf, ps, Life(env, wf, user, isTask, events));
  }
}
