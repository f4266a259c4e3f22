/** The step log as the mapped objects the session changes in place. Every method is proved equal to
    the function on values in `StepLog` that it implements. */
module StepStore {
  import opened ProcessTypes
  import opened StepLog

  /** A state dict as an object: several variables can hold the same one. */
  class Dict {
    var m: State

    constructor (m: State)
      ensures this.m == m
    {
      this.m := m;
    }

    /** `self.pop(k, None)` */
    method Pop(k: Key) returns (v: Val)
      modifies this
      ensures v == Get(old(m), k)
      ensures m == old(m) - {k}
    {
      v := Get(m, k);
      m := m - {k};
    }
  }

  /** A row of the step table as a mapped object. */
  class StepRow {
    var name: Val
    var status: StepStatus
    var state: Dict
    var createdBy: string
    var startedAt: Val
    var completedAt: nat

    constructor (name: Val, status: StepStatus, state: Dict, createdBy: string)
      ensures this.name == name && this.status == status && this.state == state
      ensures this.createdBy == createdBy
    {
      this.name, this.status, this.state, this.createdBy := name, status, state, createdBy;
      this.startedAt, this.completedAt := Null, 0;
    }

    ghost function View(): Row
      reads this, state
    {
      Row(name, status, state.m, createdBy, startedAt, completedAt)
    }
  }

  method PopAll(d: Dict, ks: set<Key>)
    modifies d
    ensures d.m == old(d.m) - ks
  {
    var rest := ks;
    while rest != {}
      invariant rest <= ks
      invariant d.m == old(d.m) - (ks - rest)
      decreases rest
    {
      var k :| k in rest;
      var _ := d.Pop(k);
      rest := rest - {k};
    }
  }

  /** Takes the remaining steering keys out of the dict and returns the start time. */
  method PopSteering(state: Dict) returns (start: Val)
    modifies state
    ensures
      var s1 := old(state.m) - RemovedBy(Get(old(state.m), RemoveKeys)) - {RemoveKeys};
      state.m == s1 - {StartedAt} && start == Get(s1, StartedAt)
  {
    PopAll(state, RemovedBy(Get(state.m, RemoveKeys)));
    var _ := state.Pop(RemoveKeys);
    start := state.Pop(StartedAt);
  }

  /** Writes a repeated error into the row that already records it. */
  method FoldError(last: StepRow, user: string, step: StepInfo, status: StepStatus, state: Dict)
    returns (same: bool)
    requires status.Errs()
    modifies last`state
    ensures same == SameError(old(last.View()), old(last.state.m), status, step, user, state.m)
    ensures !same ==> last.state == old(last.state)
    ensures same ==> fresh(last.state)
                     && last.state.m == state.m + RetryInfo(old(last.state.m), last.completedAt)
  {
    same := last.status == status && last.name == Text(step.name) && last.createdBy == user
            && Get(last.state.m, ErrorText) == Get(state.m, ErrorText)
            && Get(last.state.m, ErrorDetails) == Get(state.m, ErrorDetails);
    if same {
      var info := RetryInfo(last.state.m, last.completedAt);
      last.state := new Dict(state.m + info);
    }
  }

  /** `_get_current_step_to_update`: the row that takes this step. In the replace case that row
      holds the very dict `state` while the remaining keys are popped out of it, and it is also the
      row the error is compared with. */
  method CurrentStepToUpdate(last: StepRow?, user: string, step: StepInfo, status: StepStatus,
                             state: Dict, now: nat)
    returns (current: StepRow)
    requires last != null ==> last.state != state
    modifies if last == null then {} else {last}, state
    ensures current.state == state || fresh(current.state)
    ensures
      var p := Process(status, old(state.m));
      if last != null && InPlace(old(last.View()), user, step, p)
      then current == last && current.View() == ChangedRow(old(last.View()), user, step, p, now)
      else fresh(current) && current.View() == NewRow(user, step, p, now)
           && (last != null ==> last.View() == old(last.View()) && last.state == old(last.state))
  {
    hide RetryInfo, RemovedBy, Truthy, RowName;
    ghost var s := state.m;
    var stepName := RowName(step, state.m);
    var _ := state.Pop(StepNameOverride);
    var replace := state.Pop(ReplaceLastState);
    var found := false;
    if Truthy(replace) && last != null {
      current := last;
      current.status := status;
      current.state := state;
      found := true;
    }
    var start := PopSteering(state);
    assert state.m == Cleaned(s);
    if (status == Failed || status == Waiting) && last != null {
      var same := FoldError(last, user, step, status, state);
      if same {
        current := last;
        found := true;
      }
    }
    ghost var p := Process(status, s);
    assert Truthy(replace) == Truthy(Get(s, ReplaceLastState));
    if found {
      if Truthy(replace) {
        assert current.state.m == ReplacedRow(old(last.View()), user, step, p, now).state;
      } else {
        assert current.state.m == RefailedRow(old(last.View()), p, now).state;
      }
    }
    if !found {
      current := new StepRow(stepName, status, state, user);
    }
    current.startedAt := if Truthy(start) then start else Num(now);
    current.completedAt := now;
  }

  /** The row that takes the step, with the state that the database gives back. */
  method WriteRow(norm: Norm, last: StepRow?, ghost rows: seq<Row>, user: string, step: StepInfo,
                  status: StepStatus, state: Dict, now: nat)
    returns (current: StepRow)
    requires last != null ==> last.state != state
    requires if last == null then rows == [] else rows != [] && rows[|rows| - 1] == last.View()
    modifies if last == null then {} else {last}, state
    ensures fresh(current.state) && current.completedAt == now && (current != last ==> fresh(current))
    ensures current == last <==> InPlaceIn(rows, user, step, Process(status, old(state.m)))
    ensures current.View() == Entry(norm, rows, user, step, Process(status, old(state.m)), now)
    ensures last != null && current != last ==> last.View() == old(last.View()) && last.state == old(last.state)
  {
    current := CurrentStepToUpdate(last, user, step, status, state, now);
    current.state := new Dict(norm(current.state.m));
  }

  /** The session's view of one process: its row in the process table and the rows of its steps in
      the order of their completion. */
  class ProcessLog {
    var proc: Proc
    var rows: seq<StepRow>
    var now: nat
    const norm: Norm
    ghost var content: seq<Row>  // what the rows hold
    ghost var calls: seq<Call>  // what was called for the process

    constructor (proc: Proc, norm: Norm)
      ensures Valid() && View() == Db(proc, [], 0, []) && this.norm == norm && rows == []
    {
      this.proc, this.rows, this.now, this.norm, this.content, this.calls := proc, [], 0, norm, [], [];
    }

    /** Each row was completed after the one before it, so the row that a query ordered by descending
        completion time finds first is the last one, and no row occurs twice. */
    ghost predicate Valid()
      reads this, rows, set r | r in rows :: r.state
    {
      && |content| == |rows|
      && (forall i | 0 <= i < |rows| :: content[i] == rows[i].View())
      && (forall i | 0 <= i < |rows| :: content[i].completedAt < now)
      && (forall i, j | 0 <= i < j < |rows| :: content[i].completedAt < content[j].completedAt)
    }

    ghost function View(): Db
      reads this
    {
      Db(proc, content, now, calls)
    }

    /** The function of a leaf is called. */
    ghost method NoteCall(step: StepInfo, leaf: StepInfo)
      modifies this`calls
      ensures View() == Called(old(View()), step, leaf)
    {
      calls := calls + [Call(step, leaf)];
    }

    /** `_update_process`: pops the traceback out of the dict of a failing step. */
    method UpdateProcess(step: StepInfo, status: StepStatus, state: Dict)
      modifies this`proc, state
      ensures state.m == Untraced(Process(status, old(state.m)))
      ensures proc == UpdatedProc(old(proc), step, Process(status, state.m))
    {
      proc := proc.(lastStep := step.name, lastStatus := Overall(status), assignee := step.assignee);
      if status == Failed || status == Waiting {
        var _ := state.Pop(Traceback);
        if status == Failed && proc.isTask {
          if Get(state.m, ErrorClass) == Text("AssertionError")
             || Get(state.m, ErrorClass) == Text("InconsistentData") {
            proc := proc.(assignee := Noc, lastStatus := InconsistentData);
          } else if Get(state.m, ErrorClass) == Text("MaxRetryError")
                    || (Get(state.m, ErrorClass) == Text("ApiException")
                        && Get(state.m, ErrorStatusCode) in
                             {Num(BAD_GATEWAY), Num(SERVICE_UNAVAILABLE), Num(GATEWAY_TIMEOUT)}) {
            proc := proc.(assignee := System, lastStatus := ApiUnavailable);
          } else {
            proc := proc.(assignee := System);
          }
        }
      }
    }

    /** `db.session.add(current_step)`: a row that is there already is not added again. */
    method Add(current: StepRow)
      requires |content| == |rows| && current.completedAt == now
      requires forall i | 0 <= i < |rows| :: content[i].completedAt < now
      requires forall i, j | 0 <= i < j < |rows| :: content[i].completedAt < content[j].completedAt
      requires forall i | 0 <= i < |rows| && rows[i] != current :: content[i] == rows[i].View()
      requires forall i | 0 <= i < |rows| - 1 :: rows[i] != current
      modifies this
      ensures Valid() && proc == old(proc) && now == old(now) + 1 && calls == old(calls)
      ensures rows == old(rows) || rows == old(rows) + [current]
      ensures content == (if old(rows) != [] && old(rows)[|old(rows)| - 1] == current
                          then old(content)[..|old(rows)| - 1] else old(content)) + [current.View()]
    {
      if rows == [] || rows[|rows| - 1] != current {
        rows := rows + [current];
        content := content + [current.View()];
      } else {
        content := content[..|rows| - 1] + [current.View()];
      }
      now := now + 1;
    }

    /** `_db_log_step`: writes the step and hands back the process as it is stored. */
    method LogStep(user: string, step: StepInfo, p: Process) returns (r: Process)
      requires Valid()
      modifies this, rows
      ensures Valid() && forall k | 0 <= k < |rows| :: rows[k] in old(rows) || fresh(rows[k])
      ensures (View(), r) == Logged(norm, old(View()), user, step, p)
    {
      hide Entry, InPlaceIn, UpdatedProc, Untraced, Cleaned, NewRow, ChangedRow, InPlace;
      var state := new Dict(p.s);
      UpdateProcess(step, p.status, state);
      ghost var q := Process(p.status, state.m);
      assert q == p.(s := Untraced(p));
      var current := WriteRow(norm, if rows == [] then null else rows[|rows| - 1], content,
                              user, step, p.status, state, now);
      ghost var entry := current.View();
      Add(current);
      assert current.View() == entry;
      assert content == Written(norm, old(content), user, step, q, old(now));
      r := Process(p.status, current.state.m);
    }
  }
}
