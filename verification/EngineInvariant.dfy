/** Every event keeps the log a trace. */
module EngineInvariant {
  import opened ProcessTypes
  import opened StepLog
  import opened Engine
  import opened EngineHistory

  // ---- states ---------------------------------------------------------------------------------

  lemma CleanedIsTidy(env: Env, s: State)
    requires GoodNorm(env.norm)
    ensures Tidy(env, env.norm(Cleaned(s)))
  {
  }

  lemma TidyIsCleaned(env: Env, s: State, extra: State)
    requires Tidy(env, s) && extra.Keys <= {StepNameOverride, ReplaceLastState, StartedAt}
    ensures env.norm(Cleaned(s + extra)) == s
  {
    assert Get(s + extra - {StepNameOverride} - {ReplaceLastState}, RemoveKeys) == Null;
    assert Cleaned(s + extra) == s;
  }

  /** Logging a quiet state keeps it where it is. */
  lemma CleanedStays(env: Env, s: State)
    requires GoodNorm(env.norm) && Quiet(s)
    requires SubStep in s ==> s[SubStep].Text?
    requires StepGroup in s ==> s[StepGroup].Text?
    ensures SamePlace(s, env.norm(Cleaned(s))) && Quiet(env.norm(Cleaned(s)))
  {
    var c := Cleaned(s);
    assert Get(s - {StepNameOverride} - {ReplaceLastState}, RemoveKeys) == Get(s, RemoveKeys);
    assert SamePlace(s, c);
    assert Get(env.norm(c), RemoveKeys) == Null;
  }

  lemma MarkedIsKept(env: Env, g: Step, leaf: Leaf, replace: bool, p: Process)
    requires g.Group?
    ensures env.norm(Cleaned(Marked(g, leaf, replace, p).s)) == Kept(env, g, leaf, p.s)
  {
    var s := p.s + map[SubStep := Text(leaf.info.name)];
    var q := Marked(g, leaf, replace, p).s;
    assert q - {StepNameOverride} - {ReplaceLastState} == s - {StepNameOverride} - {ReplaceLastState};
  }

  /** After leaf `k` of a group succeeded or halted, the stored state is one leaf further. */
  lemma LeafMovesOn(env: Env, g: Step, k: nat, m: State, t: nat)
    requires GoodNorm(env.norm) && g.Group? && GoodStep(g) && k < |Leaves(g)| && InGroup(g, k, m)
    requires !Outcome(Leaves(g)[k], m, t).status.Errs()
    ensures InGroup(g, k + 1, Kept(env, g, Leaves(g)[k], Outcome(Leaves(g)[k], m, t).s))
  {
    if k == 0 {
      EnterMovesOn(env, g, m, t);
    } else if k == |Leaves(g)| - 1 {
      ExitMovesOn(env, g, m, t);
    } else {
      SubStepMovesOn(env, g, k, m, t);
    }
  }

  lemma EnterMovesOn(env: Env, g: Step, m: State, t: nat)
    requires GoodNorm(env.norm) && g.Group? && InGroup(g, 0, m)
    ensures InGroup(g, 1, Kept(env, g, Leaves(g)[0], Outcome(Leaves(g)[0], m, t).s))
  {
    var leaf := Leaves(g)[0];
    var m' := m + map[StartedAt := Num(t)];
    var s := leaf.run(m', t).s + map[SubStep := Text(leaf.info.name)];
    assert Get(m', RemoveKeys) == Get(m, RemoveKeys);
    var s1 := s - {StepNameOverride} - {ReplaceLastState};
    assert Get(s1, RemoveKeys) == Get(m, RemoveKeys);
    assert Cleaned(s)[StepGroup] == Text(g.group.name) && Cleaned(s)[SubStep] == Text(leaf.info.name);
    assert Get(env.norm(Cleaned(s)), RemoveKeys) == Null;
  }

  lemma ExitMovesOn(env: Env, g: Step, m: State, t: nat)
    requires GoodNorm(env.norm) && g.Group?
    ensures var n := |Leaves(g)|; InGroup(g, n, Kept(env, g, Leaves(g)[n - 1], Outcome(Leaves(g)[n - 1], m, t).s))
  {
    var leaf := Leaves(g)[|Leaves(g)| - 1];
    assert leaf == Exit(g.group.name);
    var s := leaf.run(m + map[StartedAt := Num(t)], t).s + map[SubStep := Text(leaf.info.name)];
    var s1 := s - {StepNameOverride} - {ReplaceLastState};
    assert Get(s1, RemoveKeys) == Names([StepGroup, SubStep]);
    assert StepGroup in RemovedBy(Get(s1, RemoveKeys)) && SubStep in RemovedBy(Get(s1, RemoveKeys));
    assert Get(env.norm(Cleaned(s)), RemoveKeys) == Null;
  }

  lemma SubStepMovesOn(env: Env, g: Step, k: nat, m: State, t: nat)
    requires GoodNorm(env.norm) && g.Group? && GoodStep(g) && 0 < k < |Leaves(g)| - 1 && InGroup(g, k, m)
    requires !Outcome(Leaves(g)[k], m, t).status.Errs()
    ensures InGroup(g, k + 1, Kept(env, g, Leaves(g)[k], Outcome(Leaves(g)[k], m, t).s))
  {
    var leaf := Leaves(g)[k];
    var m' := m + map[StartedAt := Num(t)];
    var r := leaf.run(m', t);
    var s := r.s + map[SubStep := Text(leaf.info.name)];
    assert Get(m', RemoveKeys) == Get(m, RemoveKeys);
    assert Quiet(m');
    assert leaf == g.subs[k - 1];
    assert SamePlace(m', r.s) && Quiet(r.s);
    assert Get(s, RemoveKeys) == Get(r.s, RemoveKeys);
    CleanedStays(env, s);
    assert Get(env.norm(Cleaned(s)), RemoveKeys) == Null;
  }

  /** A leaf outside any group stays outside. */
  lemma LeafStaysLevel(env: Env, step: Step, m: State, t: nat)
    requires GoodNorm(env.norm) && step.Single? && GoodStep(step) && Level(m)
    requires !Outcome(step.leaf, m, t).status.Errs()
    ensures Level(Outcome(step.leaf, m, t).s)
    ensures Level(Kept(env, step, step.leaf, Outcome(step.leaf, m, t).s))
  {
    var m' := m + map[StartedAt := Num(t)];
    assert Get(m', RemoveKeys) == Get(m, RemoveKeys);
    assert Quiet(m');
    CleanedStays(env, Outcome(step.leaf, m, t).s);
  }

  // ---- the process row ------------------------------------------------------------------------

  ghost predicate Reports(p: ProcessStatus, st: StepStatus) {
    p == Overall(st) || (st == Failed && (p == InconsistentData || p == ApiUnavailable))
  }

  lemma LoggedReports(norm: Norm, db: Db, user: string, step: StepInfo, p: Process)
    ensures
      var r := Logged(norm, db, user, step, p);
      && Reports(r.0.proc.lastStatus, p.status)
      && r.0.rows != [] && r.1 == Process(p.status, r.0.rows[|r.0.rows| - 1].state)
      && r.0.rows[|r.0.rows| - 1].status == p.status
  {
  }

  lemma LoggedKeepsCalls(norm: Norm, db: Db, user: string, step: StepInfo, p: Process)
    ensures
      var d := Logged(norm, db, user, step, p).0;
      d.calls == db.calls && d.now == db.now + 1
  {
  }

  // ---- groups ---------------------------------------------------------------------------------

  lemma GroupPassesZero(env: Env, wf: Workflow, g: Step, s: State)
    requires g.Group?
    ensures GroupPasses(env, wf, g, 0, s, s)
  {
    var path := [s];
    assert IsPath(env, wf, g, path) && |path| == 1 && path[0] == s;
  }

  lemma GroupPassesOneMore(env: Env, wf: Workflow, g: Step, k: nat, s: State, c: State, q: State)
    requires g.Group? && k < |Leaves(g)|
    requires GroupPasses(env, wf, g, k, s, c) && Passes(env, wf, g, Leaves(g)[k], c, q)
    ensures GroupPasses(env, wf, g, k + 1, s, q)
  {
    var path :| IsPath(env, wf, g, path) && |path| == k + 1 && path[0] == s && path[k] == c;
    var path' := path + [q];
    forall i | 0 <= i < |path'| - 1
      ensures Passes(env, wf, g, Leaves(g)[i], path'[i], path'[i + 1])
    {
      if i < k {
        assert Passes(env, wf, g, Leaves(g)[i], path[i], path[i + 1]);
      }
    }
    assert IsPath(env, wf, g, path') && |path'| == k + 2 && path'[0] == s && path'[k + 1] == q;
  }

  /** What a group that was entered in state `s` on top of the rows `bs` leaves behind. */
  ghost predicate GroupLeaves(env: Env, wf: Workflow, g: Step, bs: seq<Row>, s: State, p: Process, rows: seq<Row>)
    requires g.Group?
  {
    && HoldsGroup(g, bs, p, rows)
    && (!p.status.Errs() ==> Tidy(env, p.s))
    && (p.status.Runs() ==> GroupPasses(env, wf, g, |Leaves(g)|, s, p.s) && Level(p.s))
    && (p.status.Halts() ==> exists k: nat, c: State :: GroupHaltsAt(env, wf, g, s, p.s, k, c))
  }

  /** The loop of a group may go on at leaf `k`, with `m` merged from the state `c` that the leaves
      before it reached. */
  ghost predicate AtLeaf(env: Env, wf: Workflow, g: Step, bs: seq<Row>, s: State, c: State, m: State, k: nat,
      rows: seq<Row>)
    requires g.Group? && k <= |Leaves(g)|
  {
    && GroupPasses(env, wf, g, k, s, c) && wf.input(c, m) && InGroup(g, k, m)
    && if k == 0 then rows == bs
       else |rows| == |bs| + 1 && rows[..|bs|] == bs && rows[|bs|].name == Text(g.group.name)
  }

  /** The row of the group is last and holds `p`. */
  ghost predicate HoldsGroup(g: Step, bs: seq<Row>, p: Process, rows: seq<Row>)
    requires g.Group?
  {
    && |rows| == |bs| + 1 && rows[..|bs|] == bs && rows[|bs|].name == Text(g.group.name)
    && rows[|bs|].status == p.status && rows[|bs|].state == p.s
  }

  lemma MarkedLogged(env: Env, user: string, g: Step, leaf: Leaf, k: nat, r: Process, bs: seq<Row>, db: Db)
    requires g.Group?
    requires if k == 0 then db.rows == bs && !r.status.Errs() && !Truthy(Get(r.s, ReplaceLastState))
             else |db.rows| == |bs| + 1 && db.rows[..|bs|] == bs && db.rows[|bs|].name == Text(g.group.name)
    ensures
      var (db', p) := Logged(env.norm, db, user, leaf.info, Marked(g, leaf, k > 0, r));
      && p.status == r.status && HoldsGroup(g, bs, p, db'.rows)
      && (!r.status.Errs() ==> p.s == Kept(env, g, leaf, r.s))
  {
    var mark := Marked(g, leaf, k > 0, r);
    MarkedIsKept(env, g, leaf, k > 0, r);
    if k == 0 {
      LogAppends(env.norm, db, user, leaf.info, mark);
    } else {
      LogReplaces(env.norm, db, user, leaf.info, mark);
      assert db.rows[..|db.rows| - 1] == bs;
    }
  }

  lemma EnterSucceeds(g: Step, m: State, t: nat)
    requires g.Group? && InGroup(g, 0, m)
    ensures
      var r := Outcome(Leaves(g)[0], m, t);
      r.status == Success && !Truthy(Get(r.s, ReplaceLastState))
  {
  }

  /** The loop of a group runs leaf `k` and logs it as `p'`. */
  lemma GroupStep(env: Env, wf: Workflow, user: string, g: Step, bs: seq<Row>, s: State, c: State, m: State,
                  k: nat, p: Process, db: Db)
    returns (p': Process, db': Db)
    requires GoodNorm(env.norm) && !env.lock(true, db.now)
    requires g.Group? && GoodStep(g) && k < |Leaves(g)| && AtLeaf(env, wf, g, bs, s, c, m, k, db.rows)
    requires p.status.Runs() && p.s + map[StartedAt := Num(db.now)] == m + map[StartedAt := Num(db.now)]
    ensures ExecLeaves(env, user, g, k, p, db) == ExecLeaves(env, user, g, k + 1, p', db')
    ensures HoldsGroup(g, bs, p', db'.rows)
    ensures
      var r := Outcome(Leaves(g)[k], m, db.now);
      && p'.status == r.status
      && (!r.status.Errs() ==> p'.s == Kept(env, g, Leaves(g)[k], r.s) && Tidy(env, p'.s) && InGroup(g, k + 1, p'.s))
    ensures db'.now == db.now + 1 && db'.calls == db.calls + [Call(g.group, Leaves(g)[k].info)]
  {
    var leaf := Leaves(g)[k];
    var r := Outcome(leaf, m, db.now);
    if k == 0 {
      EnterSucceeds(g, m, db.now);
    }
    var db1 := Called(db, g.group, leaf.info);
    MarkedLogged(env, user, g, leaf, k, r, bs, db1);
    var lg := Logged(env.norm, db1, user, leaf.info, Marked(g, leaf, k > 0, r));
    db', p' := lg.0, lg.1;
    if !r.status.Errs() {
      LeafMovesOn(env, g, k, m, db.now);
      CleanedIsTidy(env, r.s + map[SubStep := Text(leaf.info.name)]);
    }
  }

  /** The group was paused after `k` of its leaves. */
  ghost predicate PausedAfter(env: Env, wf: Workflow, g: Step, s: State, q: State, k: nat)
    requires g.Group?
  {
    0 < k < |Leaves(g)| && GroupPasses(env, wf, g, k, s, q) && InGroup(g, k, q)
  }

  /** What a group that was entered in state `s` on top of the rows `bs` leaves behind when the engine
      may be paused inside it. */
  ghost predicate GroupStops(env: Env, wf: Workflow, g: Step, bs: seq<Row>, s: State, p: Process, rows: seq<Row>)
    requires g.Group?
  {
    && HoldsGroup(g, bs, p, rows)
    && (!p.status.Errs() ==> Tidy(env, p.s))
    && (p.status.Runs() ==>
          || (GroupPasses(env, wf, g, |Leaves(g)|, s, p.s) && Level(p.s))
          || ((exists t: nat :: env.lock(true, t)) && exists k: nat :: PausedAfter(env, wf, g, s, p.s, k)))
    && (p.status.Halts() ==> exists k: nat, c: State :: GroupHaltsAt(env, wf, g, s, p.s, k, c))
  }

  lemma {:induction false} GroupLoop(env: Env, wf: Workflow, user: string, g: Step, bs: seq<Row>, s: State,
                                     c: State, m: State, k: nat, p: Process, db: Db)
    requires GoodNorm(env.norm) && GoodInput(wf.input) && g.Group? && GoodStep(g) && k <= |Leaves(g)|
    requires p.status.Runs() && p.s + map[StartedAt := Num(db.now)] == m + map[StartedAt := Num(db.now)]
    requires AtLeaf(env, wf, g, bs, s, c, m, k, db.rows)
    requires env.lock(true, db.now) || k == |Leaves(g)| ==>
               k > 0 && m == c == p.s && Tidy(env, c) && HoldsGroup(g, bs, p, db.rows)
    ensures
      var r := ExecLeaves(env, user, g, k, p, db);
      GroupStops(env, wf, g, bs, s, r.0, r.1.rows)
    decreases |Leaves(g)| - k
  {
    hide Logged, Marked;
    if k == |Leaves(g)| {
    } else if env.lock(true, db.now) {
      assert PausedAfter(env, wf, g, s, p.s, k);
    } else {
      var leaf := Leaves(g)[k];
      var r := Outcome(leaf, m, db.now);
      var p', db' := GroupStep(env, wf, user, g, bs, s, c, m, k, p, db);
      if r.status.Runs() {
        assert RunsAt(env, wf, g, leaf, c, m, db.now, p'.s);
        GroupPassesOneMore(env, wf, g, k, s, c, p'.s);
        GroupLoop(env, wf, user, g, bs, s, p'.s, p'.s, k + 1, p', db');
      } else if r.status.Halts() {
        assert HaltsAt(env, wf, g, leaf, c, m, db.now, p'.s);
        assert GroupHaltsAt(env, wf, g, s, p'.s, k, c);
      }
    }
  }

  /** All calls of a pass through a step. */
  function CallsOf(step: Step): (r: seq<Call>)
    ensures |r| > 0
  {
    if step.Single? then [Call(step.leaf.info, step.leaf.info)]
    else seq(|Leaves(step)|, i requires 0 <= i < |Leaves(step)| => Call(step.group, Leaves(step)[i].info))
  }

  /** A loop of a group that began at leaf `k` with `db` has stopped before leaf `e`, as `p`. */
  ghost predicate EndsAt(env: Env, g: Step, k: nat, e: nat, db: Db, p: Process, after: Db)
    requires g.Group?
  {
    && k <= e <= |Leaves(g)| && after.now == db.now + (e - k) && after.calls == db.calls + CallsOf(g)[k..e]
    && (!p.status.Runs() ==> k < e)
    && (p.status.Halts() ==> e < |Leaves(g)|)
    && (!p.status.Errs() && !p.status.Ends() ==> 0 < e && InGroup(g, e, p.s))
    && (p.status.Runs() && e < |Leaves(g)| ==> env.lock(true, after.now))
    && forall t: nat | db.now <= t < after.now :: !env.lock(true, t)
  }

  lemma EndsLater(env: Env, g: Step, k: nat, e: nat, db: Db, mid: Db, p: Process, after: Db)
    requires g.Group? && k < |Leaves(g)| && !env.lock(true, db.now)
    requires mid.now == db.now + 1 && mid.calls == db.calls + [Call(g.group, Leaves(g)[k].info)]
    requires EndsAt(env, g, k + 1, e, mid, p, after)
    ensures EndsAt(env, g, k, e, db, p, after)
  {
    hide InGroup;
    assert [Call(g.group, Leaves(g)[k].info)] + CallsOf(g)[k + 1..e] == CallsOf(g)[k..e];
  }

  /** Only leaves between the first and the last halt. */
  lemma HaltsInside(env: Env, g: Step, k: nat, m: State, t: nat)
    requires g.Group? && k < |Leaves(g)| && Outcome(Leaves(g)[k], m, t).status.Halts()
    ensures 0 < k < |Leaves(g)| - 1
  {
  }

  /** Where the loop of a group that begins at leaf `k` stops: before leaf `e`. It has called the leaves
      from `k` on up to there, each once. It did not see a pause, or it stops for one, or at the end of the
      group, or because the last leaf it called did not succeed. */
  lemma {:induction false} GroupEnds(env: Env, wf: Workflow, user: string, g: Step, bs: seq<Row>, s: State,
                                     c: State, m: State, k: nat, p: Process, db: Db)
    returns (e: nat)
    requires GoodNorm(env.norm) && GoodInput(wf.input) && g.Group? && GoodStep(g) && k <= |Leaves(g)|
    requires p.status.Runs() && p.s + map[StartedAt := Num(db.now)] == m + map[StartedAt := Num(db.now)]
    requires AtLeaf(env, wf, g, bs, s, c, m, k, db.rows)
    requires env.lock(true, db.now) || k == |Leaves(g)| ==>
               k > 0 && m == c == p.s && Tidy(env, c) && HoldsGroup(g, bs, p, db.rows)
    ensures
      var r := ExecLeaves(env, user, g, k, p, db);
      EndsAt(env, g, k, e, db, r.0, r.1)
    decreases |Leaves(g)| - k
  {
    hide Logged, Marked, GroupPasses, Kept, InGroup;
    e := k;
    assert CallsOf(g)[k..k] == [] && db.calls + [] == db.calls;
    if k < |Leaves(g)| && !env.lock(true, db.now) {
      var leaf := Leaves(g)[k];
      var r := Outcome(leaf, m, db.now);
      var p', db' := GroupStep(env, wf, user, g, bs, s, c, m, k, p, db);
      e := k + 1;
      if r.status.Runs() {
        assert RunsAt(env, wf, g, leaf, c, m, db.now, p'.s);
        GroupPassesOneMore(env, wf, g, k, s, c, p'.s);
        e := GroupEnds(env, wf, user, g, bs, s, p'.s, p'.s, k + 1, p', db');
        var end := ExecLeaves(env, user, g, k + 1, p', db');
        EndsLater(env, g, k, e, db, db', end.0, end.1);
      } else {
        StopsAfterOne(env, user, g, k, p', db');
        if r.status.Halts() {
          HaltsInside(env, g, k, m, db.now);
        }
        assert CallsOf(g)[k..k + 1] == [Call(g.group, leaf.info)];
      }
    }
  }

  lemma StopsAfterOne(env: Env, user: string, g: Step, k: nat, p: Process, db: Db)
    requires g.Group? && k < |Leaves(g)| && !p.status.Runs()
    ensures ExecLeaves(env, user, g, k + 1, p, db) == (p, db)
  {
  }

  /** The loop around a group rewrites the row of the group with what it already holds. */
  lemma GroupRelogged(env: Env, user: string, g: Step, bs: seq<Row>, p: Process, at: int, db: Db)
    requires GoodNorm(env.norm) && g.Group? && HoldsGroup(g, bs, p, db.rows)
    requires !p.status.Errs() ==> Tidy(env, p.s)
    ensures
      var r := p.With(map[ReplaceLastState := Flag(true), StartedAt := Num(at)]);
      var (db2, p2) := Logged(env.norm, db, user, g.group, r);
      && HoldsGroup(g, bs, p2, db2.rows) && p2.status == p.status && (!p.status.Errs() ==> p2 == p)
  {
    var extra := map[ReplaceLastState := Flag(true), StartedAt := Num(at)];
    var r := p.With(extra);
    LogReplaces(env.norm, db, user, g.group, r);
    assert db.rows[..|db.rows| - 1] == bs;
    if !p.status.Errs() {
      TidyIsCleaned(env, p.s, extra);
    }
  }

  /** The whole group is run from leaf `k` and logged by the loop around it, as `p2`. */
  lemma GroupRuns(env: Env, wf: Workflow, user: string, g: Step, bs: seq<Row>, s: State,
                  c: State, m: State, k: nat, s0: State, db: Db)
    returns (p2: Process, db2: Db)
    requires GoodNorm(env.norm) && GoodInput(wf.input) && g.Group? && GoodStep(g) && k < |Leaves(g)|
    requires s0 + map[StartedAt := Num(db.now)] == m + map[StartedAt := Num(db.now)] && !env.lock(true, db.now)
    requires GroupStart(g, s0) == k && AtLeaf(env, wf, g, bs, s, c, m, k, db.rows)
    ensures var (r, db1) := RunGroup(env, user, g, s0, db); (db2, p2) == Logged(env.norm, db1, user, g.group, r)
    ensures GroupStops(env, wf, g, bs, s, p2, db2.rows) && Reports(db2.proc.lastStatus, p2.status)
    ensures
      var (p, db1) := ExecLeaves(env, user, g, k, Process(Success, s0), db);
      p2.status == p.status && (!p.status.Errs() ==> p2 == p) && db2.calls == db1.calls
  {
    hide Logged, ExecLeaves;
    GroupLoop(env, wf, user, g, bs, s, c, m, k, Process(Success, s0), db);
    var (p, db1) := ExecLeaves(env, user, g, k, Process(Success, s0), db);
    GroupRelogged(env, user, g, bs, p, db.now, db1);
    var r := RunGroup(env, user, g, s0, db).0;
    LoggedReports(env.norm, db1, user, g.group, r);
    LoggedKeepsCalls(env.norm, db1, user, g.group, r);
    var l := Logged(env.norm, db1, user, g.group, r);
    db2, p2 := l.0, l.1;
  }

  /** The same when the engine is never paused in a group. */
  lemma GroupLogged(env: Env, wf: Workflow, user: string, g: Step, bs: seq<Row>, s: State,
                    c: State, m: State, k: nat, s0: State, db: Db)
    returns (p2: Process, db2: Db)
    requires GoodEnv(env) && GoodInput(wf.input) && g.Group? && GoodStep(g) && k < |Leaves(g)|
    requires s0 + map[StartedAt := Num(db.now)] == m + map[StartedAt := Num(db.now)]
    requires GroupStart(g, s0) == k && AtLeaf(env, wf, g, bs, s, c, m, k, db.rows)
    ensures var (r, db1) := RunGroup(env, user, g, s0, db); (db2, p2) == Logged(env.norm, db1, user, g.group, r)
    ensures GroupLeaves(env, wf, g, bs, s, p2, db2.rows) && Reports(db2.proc.lastStatus, p2.status)
  {
    hide Logged, RunGroup;
    p2, db2 := GroupRuns(env, wf, user, g, bs, s, c, m, k, s0, db);
  }

  // ---- the step loop --------------------------------------------------------------------------

  /** The process row says what the last step row says; a run that was paused before it could retry
      a failed step is still running. */
  ghost predicate Synced(db: Db) {
    if db.rows == [] then db.proc.lastStatus == Created || db.proc.lastStatus == Running
    else
      var st := db.rows[|db.rows| - 1].status;
      || (st.Errs() && db.proc.lastStatus == Running)
      || Reports(db.proc.lastStatus, st)
  }

  /** The loop may go on at step `i` with process `p`. */
  ghost predicate Ready(env: Env, wf: Workflow, i: nat, p: Process, db: Db) {
    var cs := ClearedRows(db.rows);
    && i < |wf.steps| && Trace(env, wf, cs) && |cs| == i && (db.rows == [] <==> i == 0)
    && (db.rows != [] ==> !db.rows[|db.rows| - 1].status.Halts() && !db.rows[|db.rows| - 1].status.Ends())
    && p.status.Runs() && Level(p.s) && wf.input(StateBefore(wf, cs, i), p.s)
    && db.proc.lastStatus == Running
  }

  lemma TraceOneMore(env: Env, wf: Workflow, cs: seq<Row>, r: Row)
    requires Trace(env, wf, cs) && |cs| < |wf.steps|
    requires r.status.Runs() && r.name == Text(wf.steps[|cs|].Info().name) && Tidy(env, r.state) && Level(r.state)
    requires StepPasses(env, wf, wf.steps[|cs|], StateBefore(wf, cs, |cs|), r.state)
    ensures Trace(env, wf, cs + [r])
  {
    var cs' := cs + [r];
    forall i | 0 <= i < |cs'|
      ensures ProducedBy(env, wf, cs', i)
    {
      assert StateBefore(wf, cs', i) == StateBefore(wf, cs, i);
      if i < |cs| {
        assert ProducedBy(env, wf, cs, i);
      }
    }
  }

  ghost predicate GoodDb(env: Env, wf: Workflow, db: Db) {
    GoodRows(env, wf, db.rows) && Synced(db)
  }

  /** A step was run from a ready state and logged as `p`, on top of the rows `bs`. */
  ghost predicate StepLogged(env: Env, wf: Workflow, i: nat, bs: seq<Row>, p: Process, db: Db)
    requires i < |wf.steps|
  {
    var cs := ClearedRows(bs);
    && |cs| == i && db.rows != [] && db.rows[..|db.rows| - 1] == bs
    && Reports(db.proc.lastStatus, p.status)
    && var last := db.rows[|db.rows| - 1];
       && last.status == p.status && last.state == p.s
       && (if p.status.Errs() then i > 0 else Tidy(env, p.s))
       && (p.status.Runs() ==> last.name == Text(wf.steps[i].Info().name) && Level(p.s)
                               && StepPasses(env, wf, wf.steps[i], StateBefore(wf, cs, i), p.s)
                               && i + 1 < |wf.steps|)
       && (p.status.Halts() ==> i > 0 && HaltedIn(env, wf, wf.steps[i], StateBefore(wf, cs, i), p.s))
  }

  lemma SingleFails(env: Env, wf: Workflow, user: string, i: nat, db: Db, r: Process)
    requires i < |wf.steps| && |ClearedRows(db.rows)| == i > 0
    requires r.status.Errs() && !Truthy(Get(r.s, ReplaceLastState))
    ensures
      var (db2, p2) := Logged(env.norm, db, user, wf.steps[i].Info(), r);
      var bs := db2.rows[..|db2.rows| - 1];
      ClearedRows(bs) == ClearedRows(db.rows) && StepLogged(env, wf, i, bs, p2, db2)
  {
    var step := wf.steps[i];
    var (db2, p2) := Logged(env.norm, db, user, step.Info(), r);
    LoggedReports(env.norm, db, user, step.Info(), r);
    LogFails(env.norm, db, user, step.Info(), r);
    if db2.rows[..|db2.rows| - 1] != db.rows {
      ClearedLast(db.rows);
    }
  }

  lemma SingleAppends(env: Env, wf: Workflow, user: string, i: nat, db: Db, r: Process)
    requires GoodNorm(env.norm) && i < |wf.steps| && wf.steps[i].Single? && !r.status.Errs() && Level(r.s)
    ensures
      var (db2, p2) := Logged(env.norm, db, user, wf.steps[i].Info(), r);
      && |db2.rows| == |db.rows| + 1 && db2.rows[..|db2.rows| - 1] == db.rows
      && Reports(db2.proc.lastStatus, p2.status) && p2.status == r.status
      && db2.rows[|db.rows|].name == Text(wf.steps[i].Info().name)
      && db2.rows[|db.rows|].status == p2.status && db2.rows[|db.rows|].state == p2.s
      && p2.s == Kept(env, wf.steps[i], wf.steps[i].leaf, r.s) && Tidy(env, p2.s)
  {
    LogAppends(env.norm, db, user, wf.steps[i].Info(), r);
    LoggedReports(env.norm, db, user, wf.steps[i].Info(), r);
    CleanedIsTidy(env, r.s);
  }

  lemma SinglePasses(env: Env, wf: Workflow, i: nat, p: Process, db: Db, p2: Process, db2: Db)
    requires GoodEnv(env) && GoodWorkflow(wf) && Ready(env, wf, i, p, db) && wf.steps[i].Single?
    requires
      var r := Outcome(wf.steps[i].leaf, p.s, db.now);
      && |db2.rows| == |db.rows| + 1 && db2.rows[..|db2.rows| - 1] == db.rows
      && Reports(db2.proc.lastStatus, p2.status) && p2.status == r.status && !r.status.Errs()
      && db2.rows[|db.rows|].name == Text(wf.steps[i].Info().name)
      && db2.rows[|db.rows|].status == p2.status && db2.rows[|db.rows|].state == p2.s
      && p2.s == Kept(env, wf.steps[i], wf.steps[i].leaf, r.s) && Tidy(env, p2.s) && Level(p2.s)
    ensures StepLogged(env, wf, i, db.rows, p2, db2)
  {
    hide Logged;
    var step := wf.steps[i];
    var s := StateBefore(wf, ClearedRows(db.rows), i);
    if p2.status.Runs() {
      assert RunsAt(env, wf, step, step.leaf, s, p.s, db.now, p2.s);
    } else if p2.status.Halts() {
      assert HaltsAt(env, wf, step, step.leaf, s, p.s, db.now, p2.s);
    }
  }

  /** One turn of the step loop. */
  lemma StepTurn(env: Env, wf: Workflow, user: string, i: nat, p: Process, db: Db)
    returns (bs: seq<Row>, p2: Process, db2: Db)
    requires GoodEnv(env) && GoodWorkflow(wf) && Ready(env, wf, i, p, db)
    ensures (p2, db2) == Turn(env, user, wf.steps[i], p, db)
    ensures StepLogged(env, wf, i, bs, p2, db2) && ClearedRows(bs) == ClearedRows(db.rows)
  {
    if wf.steps[i].Single? {
      bs, p2, db2 := SingleTurn(env, wf, user, i, p, db);
    } else {
      bs := db.rows;
      p2, db2 := FreshGroupTurn(env, wf, user, i, p, db);
    }
  }

  lemma SingleTurn(env: Env, wf: Workflow, user: string, i: nat, p: Process, db: Db)
    returns (bs: seq<Row>, p2: Process, db2: Db)
    requires GoodEnv(env) && GoodWorkflow(wf) && Ready(env, wf, i, p, db)
    requires wf.steps[i].Single?
    ensures (p2, db2) == Turn(env, user, wf.steps[i], p, db)
    ensures StepLogged(env, wf, i, bs, p2, db2) && ClearedRows(bs) == ClearedRows(db.rows)
  {
    hide Passes, Halts, StepPasses;
    var leaf := wf.steps[i].leaf;
    var r, db1 := Outcome(leaf, p.s, db.now), Called(db, leaf.info, leaf.info);
    var l := Logged(env.norm, db1, user, wf.steps[i].Info(), r);
    db2, p2 := l.0, l.1;
    bs := db2.rows[..|db2.rows| - 1];
    if r.status.Errs() {
      SingleFails(env, wf, user, i, db1, r);
    } else {
      LeafStaysLevel(env, wf.steps[i], p.s, db.now);
      SingleAppends(env, wf, user, i, db1, r);
      SinglePasses(env, wf, i, p, db, p2, db2);
    }
  }

  lemma GroupStepLogged(env: Env, wf: Workflow, i: nat, bs: seq<Row>, s: State, p: Process, db: Db)
    requires GoodWorkflow(wf) && i < |wf.steps| && wf.steps[i].Group? && |ClearedRows(bs)| == i
    requires s == StateBefore(wf, ClearedRows(bs), i)
    requires GroupLeaves(env, wf, wf.steps[i], bs, s, p, db.rows) && Reports(db.proc.lastStatus, p.status)
    ensures StepLogged(env, wf, i, bs, p, db)
  {
  }

  lemma FreshGroupTurn(env: Env, wf: Workflow, user: string, i: nat, p: Process, db: Db)
    returns (p2: Process, db2: Db)
    requires GoodEnv(env) && GoodWorkflow(wf) && Ready(env, wf, i, p, db)
    requires wf.steps[i].Group?
    ensures (p2, db2) == Turn(env, user, wf.steps[i], p, db)
    ensures StepLogged(env, wf, i, db.rows, p2, db2)
  {
    var g := wf.steps[i];
    var s := StateBefore(wf, ClearedRows(db.rows), i);
    var s0 := p.s + map[StartedAt := Num(db.now)];
    GroupPassesZero(env, wf, g, s);
    assert AtLeaf(env, wf, g, db.rows, s, s, p.s, 0, db.rows);
    p2, db2 := GroupLogged(env, wf, user, g, db.rows, s, s, p.s, 0, s0, db);
    GroupStepLogged(env, wf, i, db.rows, s, p2, db2);
  }

  lemma ClearedAfter(env: Env, wf: Workflow, i: nat, bs: seq<Row>, p: Process, db: Db)
    requires i < |wf.steps| && StepLogged(env, wf, i, bs, p, db)
    ensures
      var last := db.rows[|db.rows| - 1];
      db.rows == bs + [last] && ClearedRows(db.rows) == ClearedRows(bs) + if p.status.Cleared() then [last] else []
  {
    hide ClearedRows, StepPasses, HaltedIn;
    var last := db.rows[|db.rows| - 1];
    assert db.rows == bs + [last];
    ClearedAppend(bs, last);
  }

  lemma AfterPassing(env: Env, wf: Workflow, i: nat, bs: seq<Row>, p: Process, db: Db)
    requires GoodWorkflow(wf) && i < |wf.steps| && StepLogged(env, wf, i, bs, p, db) && Trace(env, wf, ClearedRows(bs))
    requires p.status.Runs()
    ensures Ready(env, wf, i + 1, p, db)
  {
    hide ClearedRows, Trace, StepPasses, GoodStep, Tidy;
    var last := db.rows[|db.rows| - 1];
    ClearedAfter(env, wf, i, bs, p, db);
    TraceOneMore(env, wf, ClearedRows(bs), last);
  }

  lemma AfterStopping(env: Env, wf: Workflow, i: nat, bs: seq<Row>, p: Process, db: Db)
    requires i < |wf.steps| && StepLogged(env, wf, i, bs, p, db) && Trace(env, wf, ClearedRows(bs))
    requires !p.status.Runs()
    ensures GoodDb(env, wf, db)
  {
    hide ClearedRows, Trace, StepPasses, HaltedIn, ProducedBy;
    var cs, last := ClearedRows(bs), db.rows[|db.rows| - 1];
    ClearedAfter(env, wf, i, bs, p, db);
    if p.status.Ends() {
      assert (cs + [last])[..i] == cs;
      assert EndsAfter(env, wf, cs + [last], i);
    } else {
      assert cs + [] == cs;
    }
  }

  /** What the rows are after a step was logged. */
  lemma AfterStep(env: Env, wf: Workflow, i: nat, bs: seq<Row>, p: Process, db: Db)
    requires GoodWorkflow(wf) && i < |wf.steps| && StepLogged(env, wf, i, bs, p, db) && Trace(env, wf, ClearedRows(bs))
    ensures p.status.Runs() ==> Ready(env, wf, i + 1, p, db)
    ensures !p.status.Runs() ==> GoodDb(env, wf, db)
  {
    hide StepLogged, Trace, Ready, GoodDb, GoodWorkflow, ClearedRows;
    if p.status.Runs() {
      AfterPassing(env, wf, i, bs, p, db);
    } else {
      AfterStopping(env, wf, i, bs, p, db);
    }
  }

  lemma {:induction false} ExecKeeps(env: Env, wf: Workflow, user: string, i: nat, p: Process, db: Db)
    returns (d: Db)
    requires GoodEnv(env) && GoodWorkflow(wf) && Ready(env, wf, i, p, db)
    ensures d == Exec(env, user, wf.steps, i, p, db).1 && GoodDb(env, wf, d)
    decreases |wf.steps| - i
  {
    hide Turn;
    if env.lock(false, db.now) {
      d := db;
    } else {
      var bs, p2, db2 := StepTurn(env, wf, user, i, p, db);
      AfterStep(env, wf, i, bs, p2, db2);
      if p2.status.Runs() {
        d := ExecKeeps(env, wf, user, i + 1, p2, db2);
      } else {
        d := db2;
      }
    }
  }
}
