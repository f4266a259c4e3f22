/** The durable step log of one process: what one log write does to its rows, as a function on values. */
module StepLog {
  import opened ProcessTypes

  datatype Assignee = System | Noc | Engineer | Nobody

  datatype StepInfo = StepInfo(name: string, assignee: Assignee)

  /** A row of the step table. */
  datatype Row = Row(name: Val, status: StepStatus, state: State, createdBy: string, startedAt: Val,
                     completedAt: nat)

  /** The row of the process table. */
  datatype Proc = Proc(lastStep: string, lastStatus: ProcessStatus, assignee: Assignee, isTask: bool)

  /** The function of `leaf` was called for `step`. */
  datatype Call = Call(step: StepInfo, leaf: StepInfo)

  /** One process as the database holds it. `now` is later than every time stamp in the rows. `calls` is
      no part of the database: it is all that was called for the process so far. */
  datatype Db = Db(proc: Proc, rows: seq<Row>, now: nat, calls: seq<Call>)

  /** What the steps of a log write share: `norm` is a round trip through JSON. */
  type Norm = State -> State

  const BAD_GATEWAY := 502
  const SERVICE_UNAVAILABLE := 503
  const GATEWAY_TIMEOUT := 504

  function Called(db: Db, step: StepInfo, leaf: StepInfo): Db {
    db.(calls := db.calls + [Call(step, leaf)])
  }

  // ---- the process row ------------------------------------------------------------------------

  predicate IsInconsistent(s: State) {
    Get(s, ErrorClass) == Text("AssertionError") || Get(s, ErrorClass) == Text("InconsistentData")
  }

  predicate IsUnavailable(s: State) {
    || Get(s, ErrorClass) == Text("MaxRetryError")
    || (&& Get(s, ErrorClass) == Text("ApiException")
        && Get(s, ErrorStatusCode) in
             {Num(BAD_GATEWAY), Num(SERVICE_UNAVAILABLE), Num(GATEWAY_TIMEOUT)})
  }

  /** The process row after a step ended as `p`. */
  function UpdatedProc(proc: Proc, step: StepInfo, p: Process): Proc {
    if p.status == Failed && proc.isTask then
      if IsInconsistent(p.s) then Proc(step.name, InconsistentData, Noc, proc.isTask)
      else if IsUnavailable(p.s) then Proc(step.name, ApiUnavailable, System, proc.isTask)
      else Proc(step.name, HasFailed, System, proc.isTask)
    else
      Proc(step.name, Overall(p.status), step.assignee, proc.isTask)
  }

  // ---- the step row ---------------------------------------------------------------------------

  /** The keys that a `__remove_keys` value asks to drop; a value that cannot be iterated drops none. */
  function RemovedBy(v: Val): set<Key> {
    match v
    case Names(ks) => set k | k in ks
    case Obj(fs) => fs.Keys
    case Text(t) => set c | c in t :: Field([c])
    case _ => {}
  }

  /** A failing state is stored without its traceback. */
  function Untraced(p: Process): State {
    if p.status.Errs() then p.s - {Traceback} else p.s
  }

  /** The state after the keys that steer the log itself have been taken out. */
  function Unsteered(s: State): State {
    var s1 := s - {StepNameOverride} - {ReplaceLastState};
    s1 - RemovedBy(Get(s1, RemoveKeys)) - {RemoveKeys}
  }

  function Cleaned(s: State): State {
    Unsteered(s) - {StartedAt}
  }

  function RowName(step: StepInfo, s: State): Val {
    if StepNameOverride in s then s[StepNameOverride] else Text(step.name)
  }

  function StartOf(s: State, now: nat): Val {
    if Truthy(Get(s, StartedAt)) then Get(s, StartedAt) else Num(now)
  }

  /** The bookkeeping that a repeated error adds to its state. */
  function RetryInfo(prior: State, at: nat): State {
    var n := Get(prior, Retries);
    var ts := Get(prior, CompletedAt);
    map[Retries := Num((if n.Num? then n.n else 0) + 1),
        CompletedAt := Stamps((if ts.Stamps? then ts.times else []) + [at])]
  }

  /** Is the error `s` of `step` the one that `last`, with state `old`, already records? */
  predicate SameError(last: Row, prior: State, status: StepStatus, step: StepInfo, user: string, s: State) {
    && status.Errs()
    && last.status == status
    && last.name == Text(step.name)
    && last.createdBy == user
    && Get(prior, ErrorText) == Get(s, ErrorText)
    && Get(prior, ErrorDetails) == Get(s, ErrorDetails)
  }

  /** Does the write change the last row instead of appending one? */
  predicate InPlace(last: Row, user: string, step: StepInfo, p: Process) {
    || Truthy(Get(p.s, ReplaceLastState))
    || SameError(last, last.state, p.status, step, user, Cleaned(p.s))
  }

  /** A row of its own for the step. */
  function NewRow(user: string, step: StepInfo, p: Process, now: nat): Row {
    Row(RowName(step, p.s), p.status, Cleaned(p.s), user, StartOf(Unsteered(p.s), now), now)
  }

  /** The last row after it was replaced. It has taken over status and state before it is compared
      with the error, so then only its name and its creator decide. */
  function ReplacedRow(last: Row, user: string, step: StepInfo, p: Process, now: nat): Row {
    var c := Cleaned(p.s);
    var state := if p.status.Errs() && last.name == Text(step.name) && last.createdBy == user
                 then c + RetryInfo(c, last.completedAt) else c;
    Row(last.name, p.status, state, last.createdBy, StartOf(Unsteered(p.s), now), now)
  }

  /** The last row after it took the same error once more. */
  function RefailedRow(last: Row, p: Process, now: nat): Row {
    last.(state := Cleaned(p.s) + RetryInfo(last.state, last.completedAt),
          startedAt := StartOf(Unsteered(p.s), now), completedAt := now)
  }

  function ChangedRow(last: Row, user: string, step: StepInfo, p: Process, now: nat): Row {
    if Truthy(Get(p.s, ReplaceLastState)) then ReplacedRow(last, user, step, p, now)
    else RefailedRow(last, p, now)
  }

  predicate InPlaceIn(rows: seq<Row>, user: string, step: StepInfo, p: Process) {
    rows != [] && InPlace(rows[|rows| - 1], user, step, p)
  }

  /** The row that a log write leaves last. Its state makes a round trip through JSON. */
  function Entry(norm: Norm, rows: seq<Row>, user: string, step: StepInfo, p: Process, now: nat): Row {
    var r := if InPlaceIn(rows, user, step, p) then ChangedRow(rows[|rows| - 1], user, step, p, now)
             else NewRow(user, step, p, now);
    r.(state := norm(r.state))
  }

  /** The rows after a log write: the last row is replaced, or takes a repeated error, or a row is
      appended. */
  function Written(norm: Norm, rows: seq<Row>, user: string, step: StepInfo, p: Process, now: nat): (r: seq<Row>)
    ensures r != []
  {
    (if InPlaceIn(rows, user, step, p) then rows[..|rows| - 1] else rows) + [Entry(norm, rows, user, step, p, now)]
  }

  /** A whole log write: the new database and the process that the engine goes on with. */
  function Logged(norm: Norm, db: Db, user: string, step: StepInfo, p: Process): (r: (Db, Process)) {
    var q := p.(s := Untraced(p));
    var rows := Written(norm, db.rows, user, step, q, db.now);
    (Db(UpdatedProc(db.proc, step, q), rows, db.now + 1, db.calls), Process(p.status, rows[|rows| - 1].state))
  }
}
