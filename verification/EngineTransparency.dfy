/** Recovery is transparent: a process whose steps are deterministic and that is paused and restarted
    any number of times ends with the same log as one that is never paused. */
module EngineTransparency {
  import opened ProcessTypes
  import opened StepLog
  import opened Engine
  import opened EngineHistory
  import opened EngineInvariant
  import opened EngineTheorems

  // ---- the same log at another time -------------------------------------------------------------

  /** The keys whose values are times. */
  const TIMES: set<Key> := {StartedAt, CompletedAt}

  /** Two processes that differ in times only. */
  ghost predicate SameProcess(p: Process, q: Process) {
    && p.status == q.status
    && if p.status.Errs() then p.s - TIMES == q.s - TIMES else p.s - {StartedAt} == q.s - {StartedAt}
  }

  /** Two rows that differ only in times and in who caused them to be written. */
  ghost predicate SameRow(r: Row, q: Row) {
    r.name == q.name && SameProcess(Process(r.status, r.state), Process(q.status, q.state))
    && (!r.status.Errs() ==> r.state == q.state)
  }

  ghost predicate SameRows(rs: seq<Row>, qs: seq<Row>) {
    |rs| == |qs| && forall i | 0 <= i < |rs| :: SameRow(rs[i], qs[i])
  }

  ghost predicate SameDb(d: Db, e: Db) {
    SameRows(d.rows, e.rows) && d.proc == e.proc && d.calls == e.calls
  }

  /** The last rows were both written by the current user, or neither was. */
  ghost predicate SameOwner(u: string, rs: seq<Row>, v: string, qs: seq<Row>) {
    rs != [] && qs != [] ==> (rs[|rs| - 1].createdBy == u <==> qs[|qs| - 1].createdBy == v)
  }

  /** A step whose result depends on nothing but the state, the start time excepted. */
  ghost predicate Steady(leaf: Leaf) {
    forall s: State, a: Val, b: Val, t: nat, t': nat {:trigger leaf.run(s[StartedAt := a], t),
        leaf.run(s[StartedAt := b], t')} ::
      var p, q := leaf.run(s[StartedAt := a], t), leaf.run(s[StartedAt := b], t');
      p.status == q.status && p.s - {StartedAt} == q.s - {StartedAt}
  }

  ghost predicate SteadyStep(step: Step) {
    match step
    case Single(leaf) => Steady(leaf)
    case Group(_, subs) => forall i | 0 <= i < |subs| :: Steady(subs[i])
  }

  /** JSON converts a dict key by key. */
  ghost predicate ByKey(norm: Norm) {
    forall s: State, t: State, ks: set<Key> {:trigger norm(s) - ks, norm(t) - ks} ::
      s - ks == t - ks ==> norm(s) - ks == norm(t) - ks
  }

  lemma CleanedWithout(s: State, t: State, ks: set<Key>)
    requires ks <= TIMES && s - ks == t - ks
    ensures Cleaned(s) - ks == Cleaned(t) - ks
    ensures forall k | k !in ks :: Get(s, k) == Get(t, k) && (k in s <==> k in t)
  {
    forall k | k !in ks
      ensures Get(s, k) == Get(t, k) && (k in s <==> k in t)
    {
      assert k in s <==> k in s - ks;
      assert k in t <==> k in t - ks;
      assert k in s ==> s[k] == (s - ks)[k];
      assert k in t ==> t[k] == (t - ks)[k];
    }
    var s1 := s - {StepNameOverride} - {ReplaceLastState};
    var t1 := t - {StepNameOverride} - {ReplaceLastState};
    assert Get(s1, RemoveKeys) == Get(s, RemoveKeys) == Get(t, RemoveKeys) == Get(t1, RemoveKeys);
    var c, d := Cleaned(s) - ks, Cleaned(t) - ks;
    forall k
      ensures k in c <==> k in d
      ensures k in c ==> c[k] == d[k]
    {
      assert k !in ks ==> Get(s, k) == Get(t, k);
    }
    assert c == d;
  }

  lemma SameUntraced(p: Process, q: Process)
    requires SameProcess(p, q)
    ensures SameProcess(p.(s := Untraced(p)), q.(s := Untraced(q)))
  {
    if p.status.Errs() {
      assert (p.s - {Traceback}) - TIMES == (p.s - TIMES) - {Traceback};
      assert (q.s - {Traceback}) - TIMES == (q.s - TIMES) - {Traceback};
    }
  }

  lemma SameStored(norm: Norm, status: StepStatus, s: State, t: State)
    requires ByKey(norm) && SameProcess(Process(status, s), Process(status, t))
    ensures
      var c, d := norm(Cleaned(s)), norm(Cleaned(t));
      SameProcess(Process(status, c), Process(status, d)) && (!status.Errs() ==> c == d)
  {
    if status.Errs() {
      CleanedWithout(s, t, TIMES);
    } else {
      CleanedWithout(s, t, {StartedAt});
      assert Cleaned(s) == Cleaned(s) - {StartedAt} == Cleaned(t) - {StartedAt} == Cleaned(t);
    }
  }

  lemma SameRetryInfo(c: State, d: State, x: State, y: State, a: nat, b: nat)
    requires c - TIMES == d - TIMES && x - TIMES == y - TIMES
    ensures (c + RetryInfo(x, a)) - TIMES == (d + RetryInfo(y, b)) - TIMES
  {
    assert Get(x, Retries) == Get(x - TIMES, Retries) == Get(y - TIMES, Retries) == Get(y, Retries);
    var n := RetryInfo(x, a)[Retries];
    assert (c + RetryInfo(x, a)) - TIMES == (c - TIMES)[Retries := n];
    assert (d + RetryInfo(y, b)) - TIMES == (d - TIMES)[Retries := n];
  }

  /** A retry is counted the same, from the state itself or from that of the row before. */
  lemma SameRetried(norm: Norm, status: StepStatus, s: State, t: State, x: State, y: State, a: nat, b: nat)
    requires ByKey(norm) && status.Errs() && SameProcess(Process(status, s), Process(status, t))
    requires x - TIMES == y - TIMES
    ensures
      var c, d := Cleaned(s), Cleaned(t);
      && norm(c + RetryInfo(c, a)) - TIMES == norm(d + RetryInfo(d, b)) - TIMES
      && norm(c + RetryInfo(x, a)) - TIMES == norm(d + RetryInfo(y, b)) - TIMES
  {
    hide Cleaned, RetryInfo;
    CleanedWithout(s, t, TIMES);
    SameRetryInfo(Cleaned(s), Cleaned(t), Cleaned(s), Cleaned(t), a, b);
    SameRetryInfo(Cleaned(s), Cleaned(t), x, y, a, b);
  }

  /** A write that may change the last row meets rows that both were written by the current user, or both were
      not; only a write that surely appends a row may meet any. */
  ghost predicate Comparable(u: string, rs: seq<Row>, v: string, qs: seq<Row>, p: Process) {
    || SameOwner(u, rs, v, qs)
    || (!Truthy(Get(p.s, ReplaceLastState))
        && (p.status.Errs() && rs != [] ==> !rs[|rs| - 1].status.Errs()))
  }

  lemma InPlaceSame(u: string, rs: seq<Row>, v: string, qs: seq<Row>, step: StepInfo, p: Process, q: Process)
    requires SameRows(rs, qs) && SameProcess(p, q) && Comparable(u, rs, v, qs, p)
    ensures InPlaceIn(rs, u, step, p) == InPlaceIn(qs, v, step, q)
    ensures Truthy(Get(p.s, ReplaceLastState)) == Truthy(Get(q.s, ReplaceLastState))
    ensures InPlaceIn(rs, u, step, p) ==> SameOwner(u, rs, v, qs)
  {
    hide Cleaned;
    CleanedWithout(p.s, q.s, if p.status.Errs() then TIMES else {StartedAt});
    if rs != [] && p.status.Errs() {
      var last, last' := rs[|rs| - 1], qs[|rs| - 1];
      assert SameRow(last, last');
      SameErrors(Cleaned(p.s), Cleaned(q.s));
      if last.status.Errs() {
        SameErrors(last.state, last'.state);
      }
    }
  }

  lemma SameErrors(s: State, t: State)
    requires s - TIMES == t - TIMES
    ensures Get(s, ErrorText) == Get(t, ErrorText) && Get(s, ErrorDetails) == Get(t, ErrorDetails)
  {
    assert Get(s, ErrorText) == Get(s - TIMES, ErrorText) && Get(t, ErrorText) == Get(t - TIMES, ErrorText);
    assert Get(s, ErrorDetails) == Get(s - TIMES, ErrorDetails) && Get(t, ErrorDetails) == Get(t - TIMES, ErrorDetails);
  }

  lemma NewRowSame(norm: Norm, u: string, v: string, step: StepInfo, p: Process, q: Process, a: nat, b: nat)
    requires ByKey(norm) && SameProcess(p, q)
    ensures
      var r, r' := NewRow(u, step, p, a), NewRow(v, step, q, b);
      SameRow(r.(state := norm(r.state)), r'.(state := norm(r'.state)))
  {
    hide Cleaned;
    CleanedWithout(p.s, q.s, if p.status.Errs() then TIMES else {StartedAt});
    SameStored(norm, p.status, p.s, q.s);
  }

  lemma ChangedRowSame(norm: Norm, last: Row, u: string, last': Row, v: string, step: StepInfo, p: Process,
                       q: Process, a: nat, b: nat)
    requires ByKey(norm) && SameRow(last, last') && SameProcess(p, q)
    requires last.createdBy == u <==> last'.createdBy == v
    requires Truthy(Get(p.s, ReplaceLastState)) == Truthy(Get(q.s, ReplaceLastState))
    requires Truthy(Get(p.s, ReplaceLastState)) || (p.status.Errs() && last.status == p.status)
    ensures
      var r, r' := ChangedRow(last, u, step, p, a), ChangedRow(last', v, step, q, b);
      && SameRow(r.(state := norm(r.state)), r'.(state := norm(r'.state)))
      && (r.createdBy == u <==> r'.createdBy == v)
  {
    hide Cleaned;
    SameStored(norm, p.status, p.s, q.s);
    if p.status.Errs() {
      var x, y := if last.status.Errs() then last.state else p.s, if last.status.Errs() then last'.state else q.s;
      SameRetried(norm, p.status, p.s, q.s, x, y, last.completedAt, last'.completedAt);
    }
  }

  lemma EntrySame(norm: Norm, u: string, rs: seq<Row>, v: string, qs: seq<Row>, step: StepInfo,
                  p: Process, q: Process, a: nat, b: nat)
    requires ByKey(norm) && SameRows(rs, qs) && SameProcess(p, q) && Comparable(u, rs, v, qs, p)
    ensures InPlaceIn(rs, u, step, p) == InPlaceIn(qs, v, step, q)
    ensures
      var r, r' := Entry(norm, rs, u, step, p, a), Entry(norm, qs, v, step, q, b);
      && SameRow(r, r') && (r.createdBy == u <==> r'.createdBy == v) && r.status == p.status
      && (!p.status.Errs() ==> r.state == norm(Cleaned(p.s)))
  {
    hide Cleaned, SameRow, SameProcess;
    InPlaceSame(u, rs, v, qs, step, p, q);
    NewRowSame(norm, u, v, step, p, q, a, b);
    if InPlaceIn(rs, u, step, p) {
      var n := |rs| - 1;
      ChangedRowSame(norm, rs[n], u, qs[n], v, step, p, q, a, b);
    }
  }

  lemma WrittenSame(norm: Norm, u: string, rs: seq<Row>, v: string, qs: seq<Row>, step: StepInfo,
                    p: Process, q: Process, a: nat, b: nat)
    requires ByKey(norm) && SameRows(rs, qs) && SameProcess(p, q) && Comparable(u, rs, v, qs, p)
    ensures
      var rs', qs' := Written(norm, rs, u, step, p, a), Written(norm, qs, v, step, q, b);
      var r, r' := rs'[|rs'| - 1], qs'[|qs'| - 1];
      && SameRows(rs', qs') && SameOwner(u, rs', v, qs') && SameRow(r, r') && r.status == p.status
      && (!p.status.Errs() ==> r.state == r'.state)
  {
    hide Entry, InPlace;
    EntrySame(norm, u, rs, v, qs, step, p, q, a, b);
  }

  /** What both writes start from once the tracebacks are gone. */
  lemma UntracedSame(u: string, rs: seq<Row>, v: string, qs: seq<Row>, proc: Proc, step: StepInfo, p: Process,
      q: Process)
    requires SameProcess(p, q) && Comparable(u, rs, v, qs, p)
    ensures
      var p1, q1 := p.(s := Untraced(p)), q.(s := Untraced(q));
      && SameProcess(p1, q1) && Comparable(u, rs, v, qs, p1)
      && UpdatedProc(proc, step, p1) == UpdatedProc(proc, step, q1)
  {
    var p1, q1 := p.(s := Untraced(p)), q.(s := Untraced(q));
    SameUntraced(p, q);
    CleanedWithout(p1.s, q1.s, if p.status.Errs() then TIMES else {StartedAt});
    assert Get(p1.s, ReplaceLastState) == Get(p.s, ReplaceLastState);
    assert Get(p1.s, ErrorClass) == Get(q1.s, ErrorClass);
    assert Get(p1.s, ErrorStatusCode) == Get(q1.s, ErrorStatusCode);
  }

  lemma LoggedSame(norm: Norm, u: string, d: Db, v: string, e: Db, step: StepInfo, p: Process, q: Process)
    requires ByKey(norm) && SameDb(d, e) && SameProcess(p, q) && Comparable(u, d.rows, v, e.rows, p)
    ensures
      var (d', p') := Logged(norm, d, u, step, p);
      var (e', q') := Logged(norm, e, v, step, q);
      && SameDb(d', e') && SameOwner(u, d'.rows, v, e'.rows) && SameProcess(p', q') && p'.status == p.status
      && (!p.status.Errs() ==> p' == q')
  {
    hide Written, Untraced, UpdatedProc, Comparable, SameOwner;
    var p1, q1 := p.(s := Untraced(p)), q.(s := Untraced(q));
    UntracedSame(u, d.rows, v, e.rows, d.proc, step, p, q);
    WrittenSame(norm, u, d.rows, v, e.rows, step, p1, q1, d.now, e.now);
  }

  // ---- the same run at another time -------------------------------------------------------------

  lemma SteadyRuns(leaf: Leaf, s: State, t: State, a: nat, b: nat)
    requires Steady(leaf) && s - {StartedAt} == t - {StartedAt}
    ensures SameProcess(Outcome(leaf, s, a), Outcome(leaf, t, b))
  {
    var base := s - {StartedAt};
    assert s + map[StartedAt := Num(a)] == base[StartedAt := Num(a)];
    assert t + map[StartedAt := Num(b)] == base[StartedAt := Num(b)];
    var p, q := leaf.run(base[StartedAt := Num(a)], a), leaf.run(base[StartedAt := Num(b)], b);
    assert p.s - TIMES == (p.s - {StartedAt}) - {CompletedAt};
    assert q.s - TIMES == (q.s - {StartedAt}) - {CompletedAt};
  }

  lemma LeavesAreSteady(g: Step)
    requires g.Group? && SteadyStep(g)
    ensures forall i | 0 <= i < |Leaves(g)| :: Steady(Leaves(g)[i])
  {
    var name := g.group.name;
    EnterExitSteady(name);
    forall i | 0 <= i < |Leaves(g)|
      ensures Steady(Leaves(g)[i])
    {
      if 0 < i < |Leaves(g)| - 1 {
        assert Leaves(g)[i] == g.subs[i - 1];
      }
    }
  }

  lemma AddedSteady(leaf: Leaf, added: State)
    requires StartedAt !in added
    requires forall s: State, t: nat :: leaf.run(s, t) == Process(Success, s + added)
    ensures Steady(leaf)
  {
    forall s: State, a: Val, b: Val, t: nat, t': nat {:trigger leaf.run(s[StartedAt := a], t),
        leaf.run(s[StartedAt := b], t')}
      ensures (leaf.run(s[StartedAt := a], t).s - {StartedAt}) == (leaf.run(s[StartedAt := b], t').s - {StartedAt})
    {
      assert (s[StartedAt := a] + added) - {StartedAt} == (s[StartedAt := b] + added) - {StartedAt};
    }
  }

  lemma EnterExitSteady(name: string)
    ensures Steady(Enter(name)) && Steady(Exit(name))
  {
    AddedSteady(Enter(name), map[StepNameOverride := Text(name), StepGroup := Text(name)]);
    AddedSteady(Exit(name), map[RemoveKeys := Names([StepGroup, SubStep])]);
  }

  lemma WithSame(p: Process, q: Process, x: State, y: State)
    requires SameProcess(p, q) && x.Keys == y.Keys && x - {StartedAt} == y - {StartedAt}
    ensures SameProcess(p.With(x), q.With(y))
  {
    var ks := if p.status.Errs() then TIMES else {StartedAt};
    assert x - ks == (x - {StartedAt}) - ks;
    assert y - ks == (y - {StartedAt}) - ks;
    assert (p.s + x) - ks == (p.s - ks) + (x - ks);
    assert (q.s + y) - ks == (q.s - ks) + (y - ks);
  }

  lemma MarkedSame(g: Step, leaf: Leaf, replace: bool, p: Process, q: Process)
    requires g.Group? && SameProcess(p, q)
    ensures SameProcess(Marked(g, leaf, replace, p), Marked(g, leaf, replace, q))
    ensures Truthy(Get(Marked(g, leaf, replace, p).s, ReplaceLastState))
         == (replace || Truthy(Get(p.s, ReplaceLastState)))
    ensures Marked(g, leaf, replace, p).status == p.status
  {
    var x := map[SubStep := Text(leaf.info.name), StepNameOverride := Text(g.group.name)];
    WithSame(p, q, x, x);
    WithSame(p.With(x), q.With(x), map[ReplaceLastState := Flag(true)], map[ReplaceLastState := Flag(true)]);
  }

  /** Both engines are never paused in a group and store states in the same way. */
  ghost predicate SameEngine(env: Env, free: Env) {
    && env.norm == free.norm && ByKey(env.norm)
    && (forall t: nat :: !env.lock(true, t)) && (forall t: nat :: !free.lock(true, t))
  }

  lemma {:induction false} LeavesSame(env: Env, free: Env, u: string, d: Db, v: string, e: Db, g: Step, k: nat,
                                      p: Process, q: Process)
    requires SameEngine(env, free) && g.Group? && SteadyStep(g) && k <= |Leaves(g)|
    requires SameDb(d, e) && SameProcess(p, q)
    requires
      if k == 0 then p.status.Runs() && !Truthy(Get(p.s, ReplaceLastState)) else SameOwner(u, d.rows, v, e.rows)
    ensures
      var (p', d') := ExecLeaves(env, u, g, k, p, d);
      var (q', e') := ExecLeaves(free, v, g, k, q, e);
      SameDb(d', e') && SameProcess(p', q') && SameOwner(u, d'.rows, v, e'.rows)
    decreases |Leaves(g)| - k
  {
    hide Logged, Marked, SameOwner, SameRows;
    if k < |Leaves(g)| && p.status.Runs() {
      var leaf := Leaves(g)[k];
      LeavesAreSteady(g);
      SteadyRuns(leaf, p.s, q.s, d.now, e.now);
      var r, r' := Outcome(leaf, p.s, d.now), Outcome(leaf, q.s, e.now);
      MarkedSame(g, leaf, k > 0, r, r');
      var d0, e0 := Called(d, g.group, leaf.info), Called(e, g.group, leaf.info);
      LoggedSame(env.norm, u, d0, v, e0, leaf.info, Marked(g, leaf, k > 0, r), Marked(g, leaf, k > 0, r'));
      var (d1, p1) := Logged(env.norm, d0, u, leaf.info, Marked(g, leaf, k > 0, r));
      var (e1, q1) := Logged(free.norm, e0, v, leaf.info, Marked(g, leaf, k > 0, r'));
      LeavesSame(env, free, u, d1, v, e1, g, k + 1, p1, q1);
    }
  }

  lemma GroupTurnSame(env: Env, free: Env, u: string, d: Db, v: string, e: Db, g: Step, p: Process, q: Process)
    requires SameEngine(env, free) && g.Group? && SteadyStep(g)
    requires SameDb(d, e) && p.s - {StartedAt} == q.s - {StartedAt}
    requires Level(p.s) && SubStep !in q.s
    ensures
      var (p2, d2) := Turn(env, u, g, p, d);
      var (q2, e2) := Turn(free, v, g, q, e);
      SameDb(d2, e2) && p2.status == q2.status && (!p2.status.Errs() ==> p2 == q2)
  {
    hide Logged, ExecLeaves, SameOwner, SameRows;
    var s, t := p.s + map[StartedAt := Num(d.now)], q.s + map[StartedAt := Num(e.now)];
    assert s - {StartedAt} == p.s - {StartedAt} && t - {StartedAt} == q.s - {StartedAt};
    var p0, q0 := Process(Success, s), Process(Success, t);
    LeavesSame(env, free, u, d, v, e, g, 0, p0, q0);
    var (p1, d1) := ExecLeaves(env, u, g, 0, p0, d);
    var (q1, e1) := ExecLeaves(free, v, g, 0, q0, e);
    var x := map[ReplaceLastState := Flag(true), StartedAt := Num(d.now)];
    var y := map[ReplaceLastState := Flag(true), StartedAt := Num(e.now)];
    assert x - {StartedAt} == y - {StartedAt};
    WithSame(p1, q1, x, y);
    LoggedSame(env.norm, u, d1, v, e1, g.Info(), p1.With(x), q1.With(y));
  }

  /** A repeated error is folded into both logs or into none: neither ends in a failing row, or both end in one
      of the current user, or both in one of another user. */
  ghost predicate FoldsSame(u: string, d: Db, v: string, e: Db) {
    SameOwner(u, d.rows, v, e.rows) || (d.rows != [] ==> !d.rows[|d.rows| - 1].status.Errs())
  }

  lemma SingleTurnSame(env: Env, free: Env, u: string, d: Db, v: string, e: Db, step: Step, p: Process, q: Process)
    requires SameEngine(env, free) && step.Single? && SteadyStep(step) && GoodStep(step)
    requires SameDb(d, e) && p.s - {StartedAt} == q.s - {StartedAt}
    requires Level(p.s) && FoldsSame(u, d, v, e)
    ensures
      var (p2, d2) := Turn(env, u, step, p, d);
      var (q2, e2) := Turn(free, v, step, q, e);
      SameDb(d2, e2) && p2.status == q2.status && (!p2.status.Errs() ==> p2 == q2)
  {
    hide Logged, SameOwner, SameRows;
    var s := p.s + map[StartedAt := Num(d.now)];
    assert Get(s, RemoveKeys) == Get(p.s, RemoveKeys);
    assert Quiet(s);
    var r, r' := Outcome(step.leaf, p.s, d.now), Outcome(step.leaf, q.s, e.now);
    SteadyRuns(step.leaf, p.s, q.s, d.now, e.now);
    var d0, e0 := Called(d, step.leaf.info, step.leaf.info), Called(e, step.leaf.info, step.leaf.info);
    LoggedSame(env.norm, u, d0, v, e0, step.Info(), r, r');
  }

  lemma TurnSame(env: Env, free: Env, u: string, d: Db, v: string, e: Db, step: Step, p: Process, q: Process)
    requires SameEngine(env, free) && SteadyStep(step) && GoodStep(step)
    requires SameDb(d, e) && p.s - {StartedAt} == q.s - {StartedAt}
    requires Level(p.s) && SubStep !in q.s && (step.Single? ==> FoldsSame(u, d, v, e))
    ensures
      var (p2, d2) := Turn(env, u, step, p, d);
      var (q2, e2) := Turn(free, v, step, q, e);
      SameDb(d2, e2) && p2.status == q2.status && (!p2.status.Errs() ==> p2 == q2)
  {
    hide Turn;
    if step.Single? {
      SingleTurnSame(env, free, u, d, v, e, step, p, q);
    } else {
      GroupTurnSame(env, free, u, d, v, e, step, p, q);
    }
  }

  ghost predicate SteadyWorkflow(wf: Workflow) {
    GoodWorkflow(wf) && forall i | 0 <= i < |wf.steps| :: SteadyStep(wf.steps[i])
  }

  ghost predicate Transparent(env: Env) {
    GoodEnv(env) && ByKey(env.norm)
  }

  /** The same engine, never paused. */
  function Free(env: Env): Env {
    env.(lock := (midStep: bool, t: nat) => false)
  }

  /** Ready to go on, not after a failure, exactly where the last cleared row ended. */
  ghost predicate Paused(env: Env, wf: Workflow, i: nat, p: Process, db: Db) {
    && Ready(env, wf, i, p, db) && p.s == StateBefore(wf, ClearedRows(db.rows), i)
    && (db.rows != [] ==> db.rows[|db.rows| - 1].status.Runs())
  }

  /** After one turn from such a point the process has stopped or is at the next such point. */
  lemma PausedTurn(env: Env, wf: Workflow, user: string, i: nat, p: Process, db: Db)
    requires GoodEnv(env) && GoodWorkflow(wf) && Paused(env, wf, i, p, db)
    ensures
      var (p2, db2) := Turn(env, user, wf.steps[i], p, db);
      && (p2.status.Runs() ==> Paused(env, wf, i + 1, p2, db2))
      && (!p2.status.Runs() ==> db2.proc.lastStatus != Running)
  {
    hide Turn;
    var bs, p2, db2 := StepTurn(env, wf, user, i, p, db);
    AfterStep(env, wf, i, bs, p2, db2);
    ClearedLast(db2.rows);
  }

  lemma {:induction false} LeavesFree(env: Env, u: string, g: Step, k: nat, p: Process, db: Db)
    requires GoodEnv(env) && g.Group? && k <= |Leaves(g)|
    ensures ExecLeaves(Free(env), u, g, k, p, db) == ExecLeaves(env, u, g, k, p, db)
    decreases |Leaves(g)| - k
  {
    hide Logged, Marked;
    if k < |Leaves(g)| && p.status.Runs() {
      var leaf := Leaves(g)[k];
      var db0 := Called(db, g.group, leaf.info);
      var (db1, p1) := Logged(env.norm, db0, u, leaf.info, Marked(g, leaf, k > 0, Outcome(leaf, p.s, db.now)));
      LeavesFree(env, u, g, k + 1, p1, db1);
    }
  }

  lemma TurnFree(env: Env, u: string, step: Step, p: Process, db: Db)
    requires GoodEnv(env)
    ensures Turn(Free(env), u, step, p, db) == Turn(env, u, step, p, db)
  {
    hide Logged, ExecLeaves;
    var s := p.s + map[StartedAt := Num(db.now)];
    if step.Group? {
      LeavesFree(env, u, step, GroupStart(step, s), Process(Success, s), db);
    }
  }

  /** The turns of the paused engine and of the free one leave the same log. */
  lemma BothTurn(env: Env, wf: Workflow, u: string, d: Db, v: string, e: Db, i: nat, p: Process, q: Process)
    returns (p2: Process, d2: Db, q2: Process, e2: Db)
    requires Transparent(env) && SteadyWorkflow(wf) && Paused(env, wf, i, p, d)
    requires SameDb(d, e) && p.s == q.s
    ensures (p2, d2) == Turn(env, u, wf.steps[i], p, d) == Turn(Free(env), u, wf.steps[i], p, d)
    ensures (q2, e2) == Turn(Free(env), v, wf.steps[i], q, e)
    ensures SameDb(d2, e2) && p2.status == q2.status && (!p2.status.Errs() ==> p2 == q2)
    ensures if p2.status.Runs() then Paused(env, wf, i + 1, p2, d2) else d2.proc.lastStatus != Running
  {
    hide Turn, SameDb;
    var t, t' := Turn(env, u, wf.steps[i], p, d), Turn(Free(env), v, wf.steps[i], q, e);
    p2, d2, q2, e2 := t.0, t.1, t'.0, t'.1;
    TurnFree(env, u, wf.steps[i], p, d);
    TurnSame(env, Free(env), u, d, v, e, wf.steps[i], p, q);
    PausedTurn(env, wf, u, i, p, d);
  }

  /** Two runs that differ only in when and by whom they are made leave the same log. */
  lemma {:induction false} ExecSame(env: Env, wf: Workflow, u: string, d: Db, v: string, e: Db, i: nat, p: Process,
      q: Process)
    requires Transparent(env) && SteadyWorkflow(wf) && Paused(env, wf, i, p, d)
    requires SameDb(d, e) && q.status.Runs() && p.s == q.s
    ensures SameDb(Exec(Free(env), u, wf.steps, i, p, d).1, Exec(Free(env), v, wf.steps, i, q, e).1)
    decreases |wf.steps| - i
  {
    hide Turn, SameDb;
    var p2, d2, q2, e2 := BothTurn(env, wf, u, d, v, e, i, p, q);
    if p2.status.Runs() {
      ExecSame(env, wf, u, d2, v, e2, i + 1, p2, q2);
    }
  }

  /** The unpaused engine finishes what a pause left running. */
  function Finish(env: Env, wf: Workflow, user: string, db: Db): Db {
    if db.proc.lastStatus == Running then RestartRun(Free(env), wf, user, db) else db
  }

  lemma SameDbTrans(a: Db, b: Db, c: Db)
    requires SameDb(a, b) && SameDb(b, c)
    ensures SameDb(a, c)
  {
    forall i | 0 <= i < |a.rows|
      ensures SameRow(a.rows[i], c.rows[i])
    {
      assert SameRow(a.rows[i], b.rows[i]) && SameRow(b.rows[i], c.rows[i]);
    }
  }

  /** Restarting the process from such a point is what the unpaused engine would have done. */
  lemma FinishPaused(env: Env, wf: Workflow, u: string, d: Db, v: string, e: Db, i: nat, p: Process, q: Process)
    requires Transparent(env) && SteadyWorkflow(wf) && Paused(env, wf, i, p, d)
    requires SameDb(d, e) && q.status.Runs() && p.s == q.s
    ensures SameDb(Finish(env, wf, u, d), Exec(Free(env), v, wf.steps, i, q, e).1)
  {
    hide SameDb, Turn;
    RecoverIdle(env, wf, d.rows);
    var d' := SetStatus(SetStatus(d, Resumed), Running);
    assert d' == d;
    var p' := Process(Success, p.s);
    ExecSame(env, wf, u, d, v, e, i, p', q);
  }

  /** However often the engine is paused during a run, finishing it leaves the log of a run without
      pauses. */
  lemma {:induction false} PauseIsInvisible(env: Env, wf: Workflow, u: string, d: Db, f: string, v: string, e: Db,
                                            i: nat, p: Process, q: Process)
    requires Transparent(env) && SteadyWorkflow(wf) && Paused(env, wf, i, p, d)
    requires SameDb(d, e) && q.status.Runs() && p.s == q.s
    ensures SameDb(Finish(env, wf, f, Exec(env, u, wf.steps, i, p, d).1), Exec(Free(env), v, wf.steps, i, q, e).1)
    decreases |wf.steps| - i
  {
    hide SameDb, Turn, RestartRun;
    if env.lock(false, d.now) {
      FinishPaused(env, wf, f, d, v, e, i, p, q);
    } else {
      var p2, d2, q2, e2 := BothTurn(env, wf, u, d, v, e, i, p, q);
      if p2.status.Runs() {
        PauseIsInvisible(env, wf, u, d2, f, v, e2, i + 1, p2, q2);
      }
    }
  }

  /** A process that is still running was paused, and its log says where. */
  ghost predicate AtPause(env: Env, wf: Workflow, db: Db) {
    db.proc.lastStatus == Running ==>
      var cs := ClearedRows(db.rows);
      Paused(env, wf, |cs|, Process(Success, StateBefore(wf, cs, |cs|)), db)
  }

  lemma {:induction false} ExecPauses(env: Env, wf: Workflow, u: string, i: nat, p: Process, db: Db)
    requires GoodEnv(env) && GoodWorkflow(wf) && Paused(env, wf, i, p, db)
    ensures AtPause(env, wf, Exec(env, u, wf.steps, i, p, db).1)
    decreases |wf.steps| - i
  {
    hide Turn;
    if !env.lock(false, db.now) {
      PausedTurn(env, wf, u, i, p, db);
      var (p2, db2) := Turn(env, u, wf.steps[i], p, db);
      if p2.status.Runs() {
        ExecPauses(env, wf, u, i + 1, p2, db2);
      }
    }
  }

  /** The run that a restart makes of a paused process. */
  lemma RestartIsExec(env: Env, wf: Workflow, u: string, db: Db)
    requires AtPause(env, wf, db) && db.proc.lastStatus == Running
    ensures
      var cs := ClearedRows(db.rows);
      var p := Process(Success, StateBefore(wf, cs, |cs|));
      && RestartRun(env, wf, u, db) == Exec(env, u, wf.steps, |cs|, p, db).1
      && Finish(env, wf, u, db) == Exec(Free(env), u, wf.steps, |cs|, p, db).1
  {
    RecoverIdle(env, wf, db.rows);
    assert SetStatus(SetStatus(db, Resumed), Running) == db;
  }

  lemma SameDbNow(d: Db, n: nat)
    ensures SameDb(d, d) && SameDb(Later(d, n), d)
  {
  }

  /** One more pause and restart does not show. */
  lemma RestartIsInvisible(env: Env, wf: Workflow, u: string, db: Db, n: nat, f: string)
    requires Transparent(env) && SteadyWorkflow(wf) && AtPause(env, wf, db) && db.proc.lastStatus == Running
    ensures
      var d := RestartRun(env, wf, u, Later(db, n));
      AtPause(env, wf, d) && SameDb(Finish(env, wf, f, d), Finish(env, wf, u, db))
  {
    hide SameDb, Exec, RestartRun, Finish;
    var cs := ClearedRows(db.rows);
    var p := Process(Success, StateBefore(wf, cs, |cs|));
    var db' := Later(db, n);
    assert Paused(env, wf, |cs|, p, db');
    RestartIsExec(env, wf, u, db);
    RestartIsExec(env, wf, u, db');
    SameDbNow(db, n);
    ExecPauses(env, wf, u, |cs|, p, db');
    PauseIsInvisible(env, wf, u, db', f, u, db, |cs|, p, p);
  }

  /** Main theorem: pause the engine whenever you like, between any two steps, and restart the process
      as often as you like; once it is finished its log is the log of one run without pauses, times and
      users aside. */
  lemma {:induction false} RecoveryIsTransparent(env: Env, wf: Workflow, user: string, isTask: bool,
                                                 restarts: seq<Event>, f: string)
    requires Transparent(env) && SteadyWorkflow(wf)
    requires forall ev | ev in restarts :: ev.Restart?
    ensures AtPause(env, wf, Life(env, wf, user, isTask, restarts))
    ensures SameDb(Finish(env, wf, f, Life(env, wf, user, isTask, restarts)),
                   Start(Free(env), wf, user, NewProcess(isTask)))
  {
    hide SameDb, Exec, RestartRun, Finish, AtPause;
    var target := Start(Free(env), wf, user, NewProcess(isTask));
    if restarts == [] {
      FirstRun(env, wf, user, isTask, f);
    } else {
      var n := |restarts| - 1;
      var ev := restarts[n];
      assert ev in restarts;
      forall e | e in restarts[..n]
        ensures e in restarts
      {
      }
      var before := Life(env, wf, user, isTask, restarts[..n]);
      var d := Life(env, wf, user, isTask, restarts);
      if before.proc.lastStatus == Running {
        RecoveryIsTransparent(env, wf, user, isTask, restarts[..n], ev.user);
        RestartIsInvisible(env, wf, ev.user, before, ev.later, f);
        SameDbTrans(Finish(env, wf, f, d), Finish(env, wf, ev.user, before), target);
      } else {
        RecoveryIsTransparent(env, wf, user, isTask, restarts[..n], f);
        NotRestarted(env, wf, f, before, ev);
        SameDbTrans(Finish(env, wf, f, d), Finish(env, wf, f, before), target);
      }
    }
  }

  lemma FirstRun(env: Env, wf: Workflow, user: string, isTask: bool, f: string)
    requires Transparent(env) && SteadyWorkflow(wf)
    ensures
      var d := Life(env, wf, user, isTask, []);
      && AtPause(env, wf, d)
      && SameDb(Finish(env, wf, f, d), Start(Free(env), wf, user, NewProcess(isTask)))
  {
    hide SameDb, Exec, RestartRun, Finish, AtPause;
    var db := SetStatus(NewProcess(isTask), Running);
    var p := Process(Success, wf.initial);
    SameDbNow(db, 0);
    ExecPauses(env, wf, user, 0, p, db);
    PauseIsInvisible(env, wf, user, db, f, user, db, 0, p, p);
  }

  lemma NotRestarted(env: Env, wf: Workflow, f: string, db: Db, ev: Event)
    requires AtPause(env, wf, db) && db.proc.lastStatus != Running && ev.Restart?
    ensures
      var d := Happen(env, wf, ev, Later(db, ev.later));
      AtPause(env, wf, d) && SameDb(Finish(env, wf, f, d), Finish(env, wf, f, db))
  {
  }
}
