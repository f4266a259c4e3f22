/** The workflow engine: steps and step groups, the step loop, the recovery of a program counter
    from the log, and the events in the life of a process. */
module Engine {
  import opened ProcessTypes
  import opened StepLog

  /** A step that is a function from a state to a process. What it does besides, and whether it
      fails, may depend on the moment it is run. A failing step gives its error as a dict. */
  datatype Leaf = Leaf(info: StepInfo, run: (State, nat) -> Process)

  datatype Step =
    | Single(leaf: Leaf)
    | Group(group: StepInfo, subs: seq<Leaf>)
  {
    function Info(): StepInfo {
      if Single? then leaf.info else group
    }
  }

  /** What the engine depends on: the JSON round trip, and the global lock as it is read at a moment
      by a check `midStep` or between two steps. A check is `midStep` when a step group has begun and
      has not ended. */
  datatype Env = Env(norm: Norm, lock: (bool, nat) -> bool)

  /** `_extend_step_group_steps` */
  function Enter(name: string): Leaf {
    Leaf(StepInfo(name + " - Enter", System),
         (s: State, t: nat) => Process(Success, s + map[StepNameOverride := Text(name), StepGroup := Text(name)]))
  }

  function Exit(name: string): Leaf {
    Leaf(StepInfo(name + " - Exit", System),
         (s: State, t: nat) => Process(Success, s + map[RemoveKeys := Names([StepGroup, SubStep])]))
  }

  function Leaves(g: Step): seq<Leaf>
    requires g.Group?
  {
    [Enter(g.group.name)] + g.subs + [Exit(g.group.name)]
  }

  /** `list(dropwhile(lambda s: s.name != name, leaves))[1:]`, as an index. */
  function After(leaves: seq<Leaf>, name: Val): (i: nat)
    ensures i <= |leaves|
  {
    if leaves == [] then 0
    else if Text(leaves[0].info.name) == name then 1
    else 1 + After(leaves[1..], name)
  }

  /** What `dblogstep` inside a group adds to the state of a sub step. */
  function Marked(g: Step, leaf: Leaf, replace: bool, p: Process): Process
    requires g.Group?
  {
    var q := p.With(map[SubStep := Text(leaf.info.name), StepNameOverride := Text(g.group.name)]);
    if replace then q.With(map[ReplaceLastState := Flag(true)]) else q
  }

  /** `_exec_steps` over the leaves of a group, from leaf `i` on. All but the very first leaf of a
      fresh pass replace the last row. */
  function ExecLeaves(env: Env, user: string, g: Step, i: nat, p: Process, db: Db): (Process, Db)
    requires g.Group? && i <= |Leaves(g)|
    decreases |Leaves(g)| - i
  {
    if i == |Leaves(g)| || !p.status.Runs() || env.lock(true, db.now) then (p, db)
    else
      var leaf := Leaves(g)[i];
      var r := leaf.run(p.s + map[StartedAt := Num(db.now)], db.now);
      var db1 := Called(db, g.group, leaf.info);
      var (db', p') := Logged(env.norm, db1, user, leaf.info, Marked(g, leaf, i > 0, r));
      ExecLeaves(env, user, g, i + 1, p', db')
  }

  /** Where a group goes on: after the sub step that the state names, or from the start. */
  function GroupStart(g: Step, s: State): (i: nat)
    requires g.Group?
    ensures i <= |Leaves(g)|
  {
    if SubStep in s then After(Leaves(g), s[SubStep]) else 0
  }

  /** The function of a step group. */
  function RunGroup(env: Env, user: string, g: Step, s: State, db: Db): (Process, Db)
    requires g.Group?
  {
    var (p, db') := ExecLeaves(env, user, g, GroupStart(g, s), Process(Success, s), db);
    (p.With(map[ReplaceLastState := Flag(true), StartedAt := Num(db.now)]), db')
  }

  function RunStep(env: Env, user: string, step: Step, s: State, db: Db): (Process, Db) {
    if step.Single? then (step.leaf.run(s, db.now), Called(db, step.leaf.info, step.leaf.info))
    else RunGroup(env, user, step, s, db)
  }

  /** One turn of the step loop: run the step and log what it ended as. */
  function Turn(env: Env, user: string, step: Step, p: Process, db: Db): (Process, Db) {
    var (r, db1) := RunStep(env, user, step, p.s + map[StartedAt := Num(db.now)], db);
    var (db2, p2) := Logged(env.norm, db1, user, step.Info(), r);
    (p2, db2)
  }

  /** `_exec_steps` over the steps of a workflow, from step `i` on. */
  function Exec(env: Env, user: string, steps: seq<Step>, i: nat, p: Process, db: Db): (Process, Db)
    requires i <= |steps|
    decreases |steps| - i
  {
    if i == |steps| || !p.status.Runs() || env.lock(SubStep in p.s, db.now) then (p, db)
    else
      var (p2, db2) := Turn(env, user, steps[i], p, db);
      Exec(env, user, steps, i + 1, p2, db2)
  }

  // ---- recovery -------------------------------------------------------------------------------

  function ClearedRows(rows: seq<Row>): seq<Row> {
    if rows == [] then []
    else
      var n := |rows| - 1;
      ClearedRows(rows[..n]) + if rows[n].status.Cleared() then [rows[n]] else []
  }

  /** `_recoverwf` after `_restore_log`: the process to go on with and the index of the first
      remaining step. */
  function Recover(size: nat, rows: seq<Row>): (r: (Process, nat))
    ensures r.1 <= size
  {
    var cleared := ClearedRows(rows);
    var last := if rows == [] then Process(Success, map[])
                else Process(rows[|rows| - 1].status, rows[|rows| - 1].state);
    var p := if last.status.Halts() then last
             else if cleared != [] then Process(cleared[|cleared| - 1].status, cleared[|cleared| - 1].state)
             else Process(Success, map[]);
    (p, if p.status == Complete || |cleared| > size then size else |cleared|)
  }

  /** `_db_log_process_ex` */
  function Raised(proc: Proc): Proc {
    proc.(lastStep := "Unknown", lastStatus := if proc.lastStatus == OnWaiting then OnWaiting else HasFailed)
  }

  /** `runwf`. Without a remaining step a halted process cannot be resumed: the exception is written
      to the process row alone. */
  function RunWf(env: Env, user: string, steps: seq<Step>, i: nat, p: Process, db: Db): (Process, Db)
    requires i <= |steps|
  {
    var next := p.Resuming();
    if !p.status.Halts() then Exec(env, user, steps, i, next, db)
    else if i == |steps| then (p, db.(proc := Raised(db.proc)))
    else
      var (db', p') := Logged(env.norm, db, user, steps[i].Info(), next);
      Exec(env, user, steps, if StepGroup in p.s then i else i + 1, p', db')
  }

  // ---- the life of a process ------------------------------------------------------------------

  /** A workflow, the input it is started with, and what the input of a user may do to a state. */
  datatype Workflow = Workflow(steps: seq<Step>, initial: State, input: (State, State) -> bool)

  /** What happens to a stored process. Every event comes `later` than the one before.
      - `Resume` resumes or retries it, with a state into which user input has been merged
      - `Restart` is the engine being unlocked, which picks up every running process
      - `Callback` stores the data of a callback and resumes; `Progress` only stores data
      - `Timeout` fails it when it still awaits a callback
      - `UserAbort` aborts it */
  datatype Event =
    | Resume(user: string, merged: State, later: nat)
    | Restart(user: string, later: nat)
    | Callback(token: string, user: string, data: Val, merged: State, later: nat)
    | Progress(token: string, data: Val, later: nat)
    | Timeout(reason: string, later: nat)
    | UserAbort(user: string, later: nat)

  const SYSTEM_USER := "SYSTEM"

  function NewProcess(isTask: bool): Db {
    Db(Proc("", Created, Nobody, isTask), [], 0, [])
  }

  function SetStatus(db: Db, s: ProcessStatus): Db {
    db.(proc := db.proc.(lastStatus := s))
  }

  /** The first run of a new process. */
  function Start(env: Env, wf: Workflow, user: string, db: Db): Db {
    RunWf(env, user, wf.steps, 0, Process(Success, wf.initial), SetStatus(db, Running)).1
  }

  /** The state that a run goes on with: a process without any row starts from its initial input. */
  predicate MergedFrom(wf: Workflow, rows: seq<Row>, merged: State) {
    if rows == [] then merged == wf.initial else wf.input(Recover(|wf.steps|, rows).0.s, merged)
  }

  /** The executor's resume: load the process, merge the input, and run. */
  function ResumeRun(env: Env, wf: Workflow, user: string, merged: State, db: Db): Db {
    var (p, i) := Recover(|wf.steps|, db.rows);
    RunWf(env, user, wf.steps, i, p.(s := merged), SetStatus(db, Running)).1
  }

  function ResultKey(s: State): Key {
    if CallbackResultKey in s && s[CallbackResultKey].Name? then s[CallbackResultKey].key
    else Field("callback_result")
  }

  /** `replace_current_step_state` */
  function ReplaceState(db: Db, s: State): Db
    requires db.rows != []
  {
    var n := |db.rows| - 1;
    db.(rows := db.rows[n := db.rows[n].(state := s)])
  }

  /** `abort_wf` */
  function AbortWf(env: Env, wf: Workflow, user: string, db: Db): Db {
    var p := Recover(|wf.steps|, db.rows).0;
    if p.status == Complete then db
    else Logged(env.norm, db, user, StepInfo("User Aborted", Nobody), p.Aborting()).0
  }

  /** `fail_awaiting_wf` */
  function FailAwaitingWf(env: Env, wf: Workflow, reason: string, db: Db): Db {
    var p := Recover(|wf.steps|, db.rows).0;
    if p.status != AwaitingCallback then db
    else
      var failed := Process(Failed, p.s + map[ErrorText := Text(reason), ReplaceLastState := Flag(true)]);
      Logged(env.norm, db, SYSTEM_USER, StepInfo(reason, Nobody), failed).0
  }

  function CallbackState(s: State, data: Val): State {
    s + map[ResultKey(s) := data]
  }

  function ProgressState(s: State, data: Val): State {
    s + map[CallbackProgress := data, RemoveKeys := Names([CallbackProgress])]
  }

  /** The engine was unlocked: a process that was paused goes on as it is. */
  function RestartRun(env: Env, wf: Workflow, user: string, db: Db): Db {
    var merged := if db.rows == [] then wf.initial else Recover(|wf.steps|, db.rows).0.s;
    ResumeRun(env, wf, user, merged, SetStatus(db, Resumed))
  }

  /** `continue_awaiting_process` */
  function CallbackRun(env: Env, wf: Workflow, user: string, data: Val, merged: State, db: Db): Db
    requires db.rows != []
  {
    ResumeRun(env, wf, user, merged, ReplaceState(db, CallbackState(Recover(|wf.steps|, db.rows).0.s, data)))
  }

  /** `update_awaiting_process_progress` */
  function ProgressWritten(wf: Workflow, data: Val, db: Db): Db
    requires db.rows != []
  {
    ReplaceState(db, ProgressState(Recover(|wf.steps|, db.rows).0.s, data))
  }

  /** May the event happen to this process, and is its state one that the input allows? */
  predicate Enabled(wf: Workflow, ev: Event, db: Db) {
    match ev
    case Resume(_, merged, _) => CanBeResumed(db.proc.lastStatus) && MergedFrom(wf, db.rows, merged)
    case Restart(_, _) => db.proc.lastStatus == Running
    case Callback(token, _, data, merged, _) =>
      && db.proc.lastStatus == OnAwaitingCallback && db.rows != []
      && var s := Recover(|wf.steps|, db.rows).0.s;
         && Get(s, CallbackToken) == Text(token)
         && wf.input(s, CallbackState(s, data)) && wf.input(CallbackState(s, data), merged)
    case Progress(token, data, _) =>
      && db.proc.lastStatus == OnAwaitingCallback && db.rows != []
      && var s := Recover(|wf.steps|, db.rows).0.s;
         && Get(s, CallbackToken) == Text(token)
         && wf.input(s, ProgressState(s, data))
    case Timeout(_, _) => true
    case UserAbort(_, _) => true
  }

  /** What an enabled event does. */
  function Occur(env: Env, wf: Workflow, ev: Event, db: Db): Db
    requires Enabled(wf, ev, db)
  {
    match ev
    case Resume(user, merged, _) => ResumeRun(env, wf, user, merged, db)
    case Restart(user, _) => RestartRun(env, wf, user, db)
    case Callback(_, user, data, merged, _) => CallbackRun(env, wf, user, data, merged, db)
    case Progress(_, data, _) => ProgressWritten(wf, data, db)
    case Timeout(reason, _) => FailAwaitingWf(env, wf, reason, db)
    case UserAbort(user, _) => AbortWf(env, wf, user, db)
  }

  /** An event that is not enabled is refused and changes nothing. */
  function Happen(env: Env, wf: Workflow, ev: Event, db: Db): Db {
    if Enabled(wf, ev, db) then Occur(env, wf, ev, db) else db
  }

  function Later(db: Db, ticks: nat): Db {
    db.(now := db.now + ticks)
  }

  function History(env: Env, wf: Workflow, events: seq<Event>, db: Db): Db {
    if events == [] then db
    else
      var ev := events[|events| - 1];
      Happen(env, wf, ev, Later(History(env, wf, events[..|events| - 1], db), ev.later))
  }
}
