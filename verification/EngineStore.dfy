/** The step loop and the resume as they run, on the log that is changed in place. Each method is
    proved equal to the function of the same name in `Engine`. */
module EngineStore {
  import opened ProcessTypes
  import opened StepLog
  import opened StepStore
  import Engine
  import opened EngineTypes = Engine

  /** `_exec_steps` over the leaves of a group, with the logging function of the group. */
  method ExecLeaves(env: Env, log: ProcessLog, user: string, g: Step, start: nat, starting: Process)
    returns (process: Process)
    requires log.Valid() && log.norm == env.norm && g.Group? && start <= |Leaves(g)|
    modifies log, log.rows
    ensures log.Valid() && forall k | 0 <= k < |log.rows| :: log.rows[k] in old(log.rows) || fresh(log.rows[k])
    ensures (process, log.View()) == Engine.ExecLeaves(env, user, g, start, starting, old(log.View()))
  {
    hide Logged, Marked;
    process := starting;
    var leaves := Leaves(g);
    var i := start;
    while i < |leaves|
      invariant start <= i <= |leaves| && log.Valid()
      invariant forall k | 0 <= k < |log.rows| :: log.rows[k] in old(log.rows) || fresh(log.rows[k])
      invariant Engine.ExecLeaves(env, user, g, i, process, log.View())
             == Engine.ExecLeaves(env, user, g, start, starting, old(log.View()))
    {
      if !(process.status == Success || process.status == Skipped) {
        break;
      }
      if env.lock(true, log.now) {
        return;
      }
      var leaf := leaves[i];
      process := process.With(map[StartedAt := Num(log.now)]);
      var result := leaf.run(process.s, log.now);
      log.NoteCall(g.group, leaf.info);
      process := log.LogStep(user, leaf.info, Marked(g, leaf, i > 0, result));
      i := i + 1;
    }
  }

  /** The function of a step group. */
  method RunGroup(env: Env, log: ProcessLog, user: string, g: Step, s: State) returns (process: Process)
    requires log.Valid() && log.norm == env.norm && g.Group?
    modifies log, log.rows
    ensures log.Valid() && forall k | 0 <= k < |log.rows| :: log.rows[k] in old(log.rows) || fresh(log.rows[k])
    ensures (process, log.View()) == Engine.RunGroup(env, user, g, s, old(log.View()))
  {
    var started := log.now;
    process := ExecLeaves(env, log, user, g, GroupStart(g, s), Process(Success, s));
    process := process.With(map[ReplaceLastState := Flag(true), StartedAt := Num(started)]);
  }

  /** The body of the step loop: run the step and log what it ended as. */
  method Turn(env: Env, log: ProcessLog, user: string, step: Step, before: Process) returns (process: Process)
    requires log.Valid() && log.norm == env.norm
    modifies log, log.rows
    ensures log.Valid() && forall k | 0 <= k < |log.rows| :: log.rows[k] in old(log.rows) || fresh(log.rows[k])
    ensures (process, log.View()) == Engine.Turn(env, user, step, before, old(log.View()))
  {
    hide Logged, Engine.RunGroup;
    process := before.With(map[StartedAt := Num(log.now)]);
    var result: Process;
    match step {
      case Single(leaf) =>
        result := leaf.run(process.s, log.now);
        log.NoteCall(leaf.info, leaf.info);
      case Group(_, _) => result := RunGroup(env, log, user, step, process.s);
    }
    process := log.LogStep(user, step.Info(), result);
  }

  /** `_exec_steps` */
  method Exec(env: Env, log: ProcessLog, user: string, steps: seq<Step>, start: nat, starting: Process)
    returns (process: Process)
    requires log.Valid() && log.norm == env.norm && start <= |steps|
    modifies log, log.rows
    ensures log.Valid() && forall k | 0 <= k < |log.rows| :: log.rows[k] in old(log.rows) || fresh(log.rows[k])
    ensures (process, log.View()) == Engine.Exec(env, user, steps, start, starting, old(log.View()))
  {
    hide Engine.Turn;
    ghost var end := Engine.Exec(env, user, steps, start, starting, log.View());
    process := starting;
    var i := start;
    while i < |steps|
      invariant start <= i <= |steps| && log.Valid()
      invariant forall k | 0 <= k < |log.rows| :: log.rows[k] in old(log.rows) || fresh(log.rows[k])
      invariant Engine.Exec(env, user, steps, i, process, log.View()) == end
    {
      if !(process.status == Success || process.status == Skipped) {
        break;
      }
      if env.lock(SubStep in process.s, log.now) {
        return;
      }
      process := Turn(env, log, user, steps[i], process);
      i := i + 1;
    }
  }

  /** `runwf`: resume the process and run on. A halted process without a remaining step raises, and the
      handler writes that to the process row. */
  method RunWf(env: Env, log: ProcessLog, user: string, steps: seq<Step>, i: nat, state: Process)
    returns (process: Process)
    requires log.Valid() && log.norm == env.norm && i <= |steps|
    modifies log, log.rows
    ensures log.Valid() && forall k | 0 <= k < |log.rows| :: log.rows[k] in old(log.rows) || fresh(log.rows[k])
    ensures (process, log.View()) == Engine.RunWf(env, user, steps, i, state, old(log.View()))
  {
    hide Logged;
    var next := i;
    process := state.Resuming();
    if state.status == Suspend || state.status == AwaitingCallback {
      if i == |steps| {
        log.proc := Engine.Raised(log.proc);
        return state;
      }
      if StepGroup !in state.s {
        next := next + 1;
      }
      process := log.LogStep(user, steps[i].Info(), process);
    }
    process := Exec(env, log, user, steps, next, process);
  }
}
