/** The history theorem. However a process is interrupted, its cleared rows are the trace of one
    sequential pass over the steps, and their number is the index of the next step. */
module EngineHistory {
  import opened ProcessTypes
  import opened StepLog
  import opened Engine

  // ---- what a log write does to the rows ------------------------------------------------------

  /** A write that neither replaces nor fails appends one row. */
  lemma LogAppends(norm: Norm, db: Db, user: string, step: StepInfo, p: Process)
    requires !p.status.Errs() && !Truthy(Get(p.s, ReplaceLastState))
    ensures
      var r := Logged(norm, db, user, step, p);
      && |r.0.rows| == |db.rows| + 1
      && r.0.rows == db.rows + [r.0.rows[|db.rows|]]
      && var e := r.0.rows[|db.rows|];
         && e.name == RowName(step, p.s) && e.status == p.status && e.state == norm(Cleaned(p.s))
         && r.1 == Process(p.status, e.state)
  {
  }

  /** A write with the replace key rewrites the last row and keeps its name. */
  lemma LogReplaces(norm: Norm, db: Db, user: string, step: StepInfo, p: Process)
    requires db.rows != [] && Truthy(Get(p.s, ReplaceLastState))
    ensures
      var r := Logged(norm, db, user, step, p);
      var n := |db.rows| - 1;
      && |r.0.rows| == n + 1 && r.0.rows == db.rows[..n] + [r.0.rows[n]]
      && var e := r.0.rows[n];
         && e.name == db.rows[n].name && e.status == p.status
         && (!p.status.Errs() ==> e.state == norm(Cleaned(p.s)))
         && r.1 == Process(p.status, e.state)
  {
  }

  /** A failing write without the replace key takes over the last row if that row records the same error, and
      counts the repetition there; else it appends a row. */
  lemma LogFails(norm: Norm, db: Db, user: string, step: StepInfo, p: Process)
    requires p.status.Errs() && !Truthy(Get(p.s, ReplaceLastState))
    ensures
      var r := Logged(norm, db, user, step, p);
      var c := Cleaned(p.s - {Traceback});
      var n := |db.rows| - 1;
      var same := n >= 0 && SameError(db.rows[n], db.rows[n].state, p.status, step, user, c);
      var rest := r.0.rows[..|r.0.rows| - 1];
      && rest == (if same then db.rows[..n] else db.rows) && r.0.rows == rest + [r.0.rows[|rest|]]
      && var e := r.0.rows[|rest|];
         && e.status == p.status && e.createdBy == user && r.1 == Process(p.status, e.state)
         && if same then e.name == db.rows[n].name && e.startedAt == StartOf(Unsteered(p.s - {Traceback}), db.now)
              && e.state == norm(c + RetryInfo(db.rows[n].state, db.rows[n].completedAt))
            else e.name == RowName(step, p.s) && e.state == norm(c)
  {
  }

  lemma ClearedAppend(rows: seq<Row>, r: Row)
    ensures ClearedRows(rows + [r]) == ClearedRows(rows) + if r.status.Cleared() then [r] else []
  {
    assert (rows + [r])[..|rows|] == rows;
  }

  lemma ClearedLast(rows: seq<Row>)
    requires rows != []
    ensures ClearedRows(rows) == ClearedRows(rows[..|rows| - 1])
                                 + if rows[|rows| - 1].status.Cleared() then [rows[|rows| - 1]] else []
  {
  }

  // ---- the relation between states ------------------------------------------------------------

  /** The state steers the log in no way, apart from asking to drop keys that are no group's. */
  ghost predicate Quiet(s: State) {
    && ReplaceLastState !in s && StepNameOverride !in s
    && RemovedBy(Get(s, RemoveKeys)) !! {SubStep, StepGroup}
  }

  /** Both states agree on where in a group they are. */
  ghost predicate SamePlace(s: State, s': State) {
    Get(s, SubStep) == Get(s', SubStep) && (SubStep in s <==> SubStep in s')
    && Get(s, StepGroup) == Get(s', StepGroup) && (StepGroup in s <==> StepGroup in s')
  }

  /** The state of a process that is in no group. */
  ghost predicate Level(s: State) {
    Quiet(s) && SubStep !in s && StepGroup !in s
  }

  /** The state as the log stores it. */
  ghost predicate Tidy(env: Env, s: State) {
    env.norm(s) == s && s.Keys !! {StepNameOverride, ReplaceLastState, RemoveKeys, StartedAt}
  }

  /** JSON keeps the keys and the texts of a dict, and a second round trip changes nothing. */
  ghost predicate GoodNorm(norm: Norm) {
    && (forall s: State {:trigger norm(s)} :: norm(s).Keys == s.Keys)
    && (forall s: State {:trigger norm(norm(s))} :: norm(norm(s)) == norm(s))
    && (forall s: State, k: Key {:trigger norm(s)[k]} :: k in s && s[k].Text? ==> norm(s)[k] == s[k])
  }

  /** A step leaves the engine's own keys alone. */
  ghost predicate GoodLeaf(leaf: Leaf) {
    forall s: State, t: nat ::
      var r := leaf.run(s, t);
      if r.status.Errs() then !Truthy(Get(r.s, ReplaceLastState))
      else SamePlace(s, r.s) && (Quiet(s) ==> Quiet(r.s))
  }

  ghost predicate GoodStep(step: Step) {
    match step
    case Single(leaf) => GoodLeaf(leaf)
    case Group(_, subs) =>
      && (forall i | 0 <= i < |subs| :: GoodLeaf(subs[i]))
      && (var ls := Leaves(step);
          forall i, j | 0 <= i < j < |ls| :: ls[i].info.name != ls[j].info.name)
  }

  /** Merging input may be repeated or left out, and it leaves the engine's own keys alone. */
  ghost predicate GoodInput(input: (State, State) -> bool) {
    && (forall s: State :: input(s, s))
    && (forall s: State, m: State, u: State :: input(s, m) && input(m, u) ==> input(s, u))
    && (forall s: State, m: State :: input(s, m) ==> SamePlace(s, m) && (Quiet(s) ==> Quiet(m)))
  }

  /** The `init` step, and the `done` step. */
  ghost predicate IsInit(step: Step) {
    step.Single? && forall s: State, t: nat :: step.leaf.run(s, t) == Process(Success, s)
  }

  ghost predicate IsDone(step: Step) {
    step.Single? && forall s: State, t: nat :: step.leaf.run(s, t) == Process(Complete, s)
  }

  /** A workflow `init >> ... >> done` whose steps leave the engine's keys alone. */
  ghost predicate GoodWorkflow(wf: Workflow) {
    && |wf.steps| >= 2
    && IsInit(wf.steps[0]) && IsDone(wf.steps[|wf.steps| - 1])
    && (forall i | 0 <= i < |wf.steps| :: GoodStep(wf.steps[i]))
    && GoodInput(wf.input)
    && Level(wf.initial)
  }

  /** The engine is never paused while a group is under way. */
  ghost predicate GoodEnv(env: Env) {
    GoodNorm(env.norm) && forall t: nat :: !env.lock(true, t)
  }

  /** The state stored after `leaf` of `step` ended in state `s`. */
  ghost function Kept(env: Env, step: Step, leaf: Leaf, s: State): State {
    env.norm(Cleaned(if step.Group? then s + map[SubStep := Text(leaf.info.name)] else s))
  }

  ghost function Outcome(leaf: Leaf, m: State, t: nat): Process {
    leaf.run(m + map[StartedAt := Num(t)], t)
  }

  /** The leaf, run at `t` on the state `m` merged from `s`, halts, and `h` is merged from there. */
  ghost predicate HaltsAt(env: Env, wf: Workflow, step: Step, leaf: Leaf, s: State, m: State, t: nat, h: State) {
    && wf.input(s, m) && Outcome(leaf, m, t).status.Halts()
    && wf.input(Kept(env, step, leaf, Outcome(leaf, m, t).s), h)
  }

  ghost predicate Halts(env: Env, wf: Workflow, step: Step, leaf: Leaf, s: State, h: State) {
    exists m: State, t: nat :: HaltsAt(env, wf, step, leaf, s, m, t, h)
  }

  ghost predicate RunsAt(env: Env, wf: Workflow, step: Step, leaf: Leaf, s: State, m: State, t: nat, q: State) {
    && wf.input(s, m) && Outcome(leaf, m, t).status.Runs()
    && q == Kept(env, step, leaf, Outcome(leaf, m, t).s)
  }

  ghost predicate ResumesTo(env: Env, wf: Workflow, step: Step, leaf: Leaf, s: State, h: State, q: State) {
    Halts(env, wf, step, leaf, s, h) && q == env.norm(Cleaned(h))
  }

  /** One pass through `leaf` takes the stored state `s` to the stored state `q`: the leaf either
      succeeds at once, or halts and is resumed. */
  ghost predicate Passes(env: Env, wf: Workflow, step: Step, leaf: Leaf, s: State, q: State) {
    || (exists m: State, t: nat :: RunsAt(env, wf, step, leaf, s, m, t, q))
    || (exists h: State :: ResumesTo(env, wf, step, leaf, s, h, q))
  }

  /** The states between the first leaves of a group, each of which is passed once and in order. */
  ghost predicate IsPath(env: Env, wf: Workflow, g: Step, path: seq<State>)
    requires g.Group?
  {
    && 1 <= |path| <= |Leaves(g)| + 1
    && forall i | 0 <= i < |path| - 1 :: Passes(env, wf, g, Leaves(g)[i], path[i], path[i + 1])
  }

  /** The first `k` leaves of a group take `s` to `q`. */
  ghost predicate GroupPasses(env: Env, wf: Workflow, g: Step, k: nat, s: State, q: State)
    requires g.Group?
  {
    exists path: seq<State> :: IsPath(env, wf, g, path) && |path| == k + 1 && path[0] == s && path[k] == q
  }

  /** One pass through a step takes `s` to `q`. */
  ghost predicate StepPasses(env: Env, wf: Workflow, step: Step, s: State, q: State) {
    if step.Single? then Passes(env, wf, step, step.leaf, s, q)
    else GroupPasses(env, wf, step, |Leaves(step)|, s, q)
  }

  ghost function StateBefore(wf: Workflow, cs: seq<Row>, i: nat): State
    requires i <= |cs|
  {
    if i == 0 then wf.initial else cs[i - 1].state
  }

  /** The i-th row was produced by the i-th step from the state of the row before it. */
  ghost predicate ProducedBy(env: Env, wf: Workflow, cs: seq<Row>, i: nat)
    requires i < |cs| && i < |wf.steps|
  {
    && cs[i].status.Runs()
    && cs[i].name == Text(wf.steps[i].Info().name)
    && Tidy(env, cs[i].state) && Level(cs[i].state)
    && StepPasses(env, wf, wf.steps[i], StateBefore(wf, cs, i), cs[i].state)
  }

  /** The rows are the trace of a sequential pass over the first steps of the workflow. */
  ghost predicate Trace(env: Env, wf: Workflow, cs: seq<Row>) {
    |cs| <= |wf.steps| && forall i | 0 <= i < |cs| :: ProducedBy(env, wf, cs, i)
  }

  /** Where inside a group a state is, after `k` of its leaves. */
  ghost predicate InGroup(g: Step, k: nat, s: State)
    requires g.Group? && k <= |Leaves(g)|
  {
    && Quiet(s)
    && if k == 0 || k == |Leaves(g)| then SubStep !in s && StepGroup !in s
       else StepGroup in s && s[StepGroup] == Text(g.group.name)
            && SubStep in s && s[SubStep] == Text(Leaves(g)[k - 1].info.name)
  }

  /** The group, entered in state `s`, has halted at its leaf `k` in state `h`. */
  ghost predicate GroupHaltsAt(env: Env, wf: Workflow, g: Step, s: State, h: State, k: nat, c: State)
    requires g.Group?
  {
    && 0 < k < |Leaves(g)| - 1
    && GroupPasses(env, wf, g, k, s, c)
    && Halts(env, wf, g, Leaves(g)[k], c, h)
    && InGroup(g, k + 1, h)
  }

  /** The step, entered in state `s`, has halted in state `h`. */
  ghost predicate HaltedIn(env: Env, wf: Workflow, step: Step, s: State, h: State) {
    if step.Single? then Halts(env, wf, step, step.leaf, s, h) && Level(h)
    else exists k: nat, c: State :: GroupHaltsAt(env, wf, step, s, h, k, c)
  }

  // ---- the invariant --------------------------------------------------------------------------

  /** Stopped between two steps, or before a step that failed. */
  ghost predicate IdleRows(env: Env, wf: Workflow, rows: seq<Row>) {
    var cs := ClearedRows(rows);
    && Trace(env, wf, cs) && |cs| < |wf.steps|
    && (rows == [] || (cs != [] && (rows[|rows| - 1].status.Runs() || rows[|rows| - 1].status.Errs())))
  }

  /** Stopped in a step that waits for input or for a callback. */
  ghost predicate HaltedRows(env: Env, wf: Workflow, rows: seq<Row>) {
    var cs := ClearedRows(rows);
    && rows != [] && rows[|rows| - 1].status.Halts()
    && Trace(env, wf, cs) && cs != [] && |cs| < |wf.steps|
    && HaltedIn(env, wf, wf.steps[|cs|], StateBefore(wf, cs, |cs|), rows[|rows| - 1].state)
  }

  /** Completed or aborted: after `k` steps only rows that end the process are cleared. */
  ghost predicate EndsAfter(env: Env, wf: Workflow, cs: seq<Row>, k: nat) {
    k < |cs| && Trace(env, wf, cs[..k]) && forall i | k <= i < |cs| :: cs[i].status.Ends()
  }

  ghost predicate EndedRows(env: Env, wf: Workflow, rows: seq<Row>) {
    && rows != [] && rows[|rows| - 1].status.Ends() && Tidy(env, rows[|rows| - 1].state)
    && exists k: nat :: EndsAfter(env, wf, ClearedRows(rows), k)
  }

  ghost predicate GoodRows(env: Env, wf: Workflow, rows: seq<Row>) {
    IdleRows(env, wf, rows) || HaltedRows(env, wf, rows) || EndedRows(env, wf, rows)
  }
}
