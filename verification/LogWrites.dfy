/** What a log write leaves, written out key by key and column by column. */
module LogWrites {
  import opened ProcessTypes
  import opened StepLog
  import opened EngineHistory

  /** Is the key named by a `__remove_keys` value: by a list, as a key of a dict, or as a character of a text? */
  predicate AsksToDrop(v: Val, k: Key) {
    match v
    case Names(ks) => exists i | 0 <= i < |ks| :: ks[i] == k
    case Obj(fs) => k in fs
    case Text(t) => exists i | 0 <= i < |t| :: k == Field([t[i]])
    case _ => false
  }

  /** Does the log store this key of the state? */
  predicate Stays(s: State, k: Key) {
    && k in s && k != StepNameOverride && k != ReplaceLastState && k != RemoveKeys && k != StartedAt
    && !AsksToDrop(Get(s, RemoveKeys), k)
  }

  /** The state without what steers the log and what is asked to be removed. */
  function Left(s: State): State {
    map k | k in s && Stays(s, k) :: s[k]
  }

  /** A value for which the source's `if` is not taken: nothing, false, zero, or something empty. */
  predicate IsNothing(v: Val) {
    v in {Null, Flag(false), Num(0), Text(""), Names([]), Stamps([]), Obj(map[])}
  }

  /** What a step sets, with the start time that the engine gave it. */
  function Began(s: State, now: nat): Val {
    if StartedAt in s && !IsNothing(s[StartedAt]) && !AsksToDrop(Get(s, RemoveKeys), StartedAt)
    then s[StartedAt] else Num(now)
  }

  lemma NothingIsFalse(v: Val)
    ensures IsNothing(v) <==> !Truthy(v)
  {
  }

  lemma NullIsNothing()
    ensures IsNothing(Null)
  {
  }

  lemma AskedIsRemoved(v: Val, k: Key)
    ensures AsksToDrop(v, k) <==> k in RemovedBy(v)
  {
  }

  lemma CleanedIsLeft(s: State)
    ensures Cleaned(s) == Left(s)
  {
    hide RemovedBy, AsksToDrop;
    forall k: Key {
      AskedIsRemoved(Get(s, RemoveKeys), k);
    }
    assert Get(s - {StepNameOverride} - {ReplaceLastState}, RemoveKeys) == Get(s, RemoveKeys);
  }

  lemma StartIsBegan(s: State, now: nat)
    ensures StartOf(Unsteered(s), now) == Began(s, now)
  {
    hide RemovedBy, AsksToDrop, IsNothing, Truthy;
    AskedIsRemoved(Get(s, RemoveKeys), StartedAt);
    NothingIsFalse(Get(s, StartedAt));
    NothingIsFalse(Null);
    NullIsNothing();
    assert Get(s - {StepNameOverride} - {ReplaceLastState}, RemoveKeys) == Get(s, RemoveKeys);
  }

  // ---- the row ------------------------------------------------------------------------------------

  /** A write that neither fails nor replaces appends this row. */
  lemma AppendedRow(norm: Norm, db: Db, user: string, step: StepInfo, p: Process)
    requires !p.status.Errs() && !(ReplaceLastState in p.s && Truthy(p.s[ReplaceLastState]))
    ensures
      var (d, q) := Logged(norm, db, user, step, p);
      var name := if StepNameOverride in p.s then p.s[StepNameOverride] else Text(step.name);
      && d.rows == db.rows + [Row(name, p.status, norm(Left(p.s)), user, Began(p.s, db.now), db.now)]
      && q == Process(p.status, norm(Left(p.s))) && d.now == db.now + 1
  {
    CleanedIsLeft(p.s);
    StartIsBegan(p.s, db.now);
  }

  /** A write that replaces leaves name and creator of the last row. */
  lemma InPlaceRow(norm: Norm, db: Db, user: string, step: StepInfo, p: Process)
    requires !p.status.Errs() && ReplaceLastState in p.s && Truthy(p.s[ReplaceLastState]) && db.rows != []
    ensures
      var (d, q) := Logged(norm, db, user, step, p);
      var n := |db.rows| - 1;
      var last := db.rows[n];
      && d.rows == db.rows[..n]
                   + [Row(last.name, p.status, norm(Left(p.s)), last.createdBy, Began(p.s, db.now), db.now)]
      && q == Process(p.status, norm(Left(p.s))) && d.now == db.now + 1
  {
    CleanedIsLeft(p.s);
    StartIsBegan(p.s, db.now);
  }

  /** The state `s` after the error was met once more: one retry more than `prior` counts, and the time of the
      row before is added to the times. */
  function Recounted(s: State, prior: State, at: nat): State {
    var n := if Retries in prior && prior[Retries].Num? then prior[Retries].n else 0;
    var times := if CompletedAt in prior && prior[CompletedAt].Stamps? then prior[CompletedAt].times else [];
    s[Retries := Num(n + 1)][CompletedAt := Stamps(times + [at])]
  }

  lemma RecountedIs(s: State, prior: State, at: nat)
    ensures s + RetryInfo(prior, at) == Recounted(s, prior, at)
  {
  }

  /** A failing write: the state is stored without its traceback. The same error, of the same step and user as
      the last row, is counted in that row; any other is a row of its own. */
  lemma FailedRow(norm: Norm, db: Db, user: string, step: StepInfo, p: Process)
    requires p.status.Errs() && !(ReplaceLastState in p.s && Truthy(p.s[ReplaceLastState]))
    ensures
      var (d, q) := Logged(norm, db, user, step, p);
      var s := p.s - {Traceback};
      var n := |db.rows| - 1;
      var name := if StepNameOverride in s then s[StepNameOverride] else Text(step.name);
      && d.now == db.now + 1
      && if && n >= 0 && db.rows[n].status == p.status && db.rows[n].name == Text(step.name)
            && db.rows[n].createdBy == user
            && Get(db.rows[n].state, ErrorText) == Get(Left(s), ErrorText)
            && Get(db.rows[n].state, ErrorDetails) == Get(Left(s), ErrorDetails)
         then
           var state := norm(Recounted(Left(s), db.rows[n].state, db.rows[n].completedAt));
           && d.rows == db.rows[..n] + [Row(db.rows[n].name, p.status, state, user, Began(s, db.now), db.now)]
           && q == Process(p.status, state)
         else
           && d.rows == db.rows + [Row(name, p.status, norm(Left(s)), user, Began(s, db.now), db.now)]
           && q == Process(p.status, norm(Left(s)))
  {
    hide Began, Left, Cleaned, StartOf, Unsteered, RetryInfo, Recounted;
    var s := p.s - {Traceback};
    CleanedIsLeft(s);
    StartIsBegan(s, db.now);
    if db.rows != [] {
      var last := db.rows[|db.rows| - 1];
      RecountedIs(Left(s), last.state, last.completedAt);
      assert db.rows[..|db.rows|] == db.rows;
    }
  }

  /** A failing write that replaces: the row has taken over the state before it is compared, so retries are
      counted when the step and the user are those of the row. */
  lemma FailedInPlace(norm: Norm, db: Db, user: string, step: StepInfo, p: Process)
    requires p.status.Errs() && ReplaceLastState in p.s && Truthy(p.s[ReplaceLastState]) && db.rows != []
    ensures
      var (d, q) := Logged(norm, db, user, step, p);
      var s := p.s - {Traceback};
      var n := |db.rows| - 1;
      var last := db.rows[n];
      var state := norm(if last.name == Text(step.name) && last.createdBy == user
                        then Recounted(Left(s), Left(s), last.completedAt) else Left(s));
      && d.rows == db.rows[..n] + [Row(last.name, p.status, state, last.createdBy, Began(s, db.now), db.now)]
      && q == Process(p.status, state) && d.now == db.now + 1
  {
    hide Began, Left, Cleaned, StartOf, Unsteered, RetryInfo, Recounted;
    var s := p.s - {Traceback};
    CleanedIsLeft(s);
    StartIsBegan(s, db.now);
    RecountedIs(Left(s), Left(s), db.rows[|db.rows| - 1].completedAt);
  }

  lemma HandsOnWhatIsLeft(norm: Norm, db: Db, user: string, step: StepInfo, p: Process)
    requires !p.status.Errs()
    ensures
      var (d, q) := Logged(norm, db, user, step, p);
      q == Process(p.status, norm(Left(p.s))) && d.rows != [] && d.rows[|d.rows| - 1].state == q.s
  {
    CleanedIsLeft(p.s);
  }

  lemma LeftIsNotNamed(s: State, ks: seq<Key>)
    requires RemoveKeys in s && s[RemoveKeys] == Names(ks)
    ensures forall k :: k in Left(s) <==>
      k in s && k !in ks && k !in {StepNameOverride, ReplaceLastState, RemoveKeys, StartedAt}
    ensures forall k | k in Left(s) :: Left(s)[k] == s[k]
  {
  }

  /** A step that succeeds or halts and asks to remove the keys `ks` hands on all its other keys, texts as they
      were, without those that steer the log. */
  lemma RemovedAreGone(norm: Norm, db: Db, user: string, step: StepInfo, p: Process, ks: seq<Key>)
    requires GoodNorm(norm) && !p.status.Errs() && RemoveKeys in p.s && p.s[RemoveKeys] == Names(ks)
    ensures
      var (d, q) := Logged(norm, db, user, step, p);
      && q.status == p.status && d.rows != [] && d.rows[|d.rows| - 1].state == q.s
      && (forall k :: k in q.s <==>
            k in p.s && k !in ks && k !in {StepNameOverride, ReplaceLastState, RemoveKeys, StartedAt})
      && (forall k | k in q.s && p.s[k].Text? :: q.s[k] == p.s[k])
  {
    hide Logged, Left, Stays;
    HandsOnWhatIsLeft(norm, db, user, step, p);
    LeftIsNotNamed(p.s, ks);
    assert norm(Left(p.s)).Keys == Left(p.s).Keys;
  }

  /** A write that does not fail takes the place of the last row exactly when there is one and the state asks for
      it, with any value that is not nothing; else it comes behind all rows. */
  lemma ReplacesWhenAsked(norm: Norm, db: Db, user: string, step: StepInfo, p: Process)
    requires !p.status.Errs()
    ensures
      var d := Logged(norm, db, user, step, p).0;
      if db.rows != [] && ReplaceLastState in p.s && !IsNothing(p.s[ReplaceLastState])
      then |d.rows| == |db.rows| && d.rows[..|db.rows| - 1] == db.rows[..|db.rows| - 1]
      else |d.rows| == |db.rows| + 1 && d.rows[..|db.rows|] == db.rows
  {
    if ReplaceLastState in p.s {
      NothingIsFalse(p.s[ReplaceLastState]);
      hide Truthy, IsNothing, Entry;
    }
  }

  // ---- the process row ----------------------------------------------------------------------------

  /** The process row names the step and its assignee, and a status for each variant. */
  lemma ProcessRow(norm: Norm, db: Db, user: string, step: StepInfo, p: Process)
    requires !(p.status == Failed && db.proc.isTask)
    ensures
      var proc := Logged(norm, db, user, step, p).0.proc;
      && proc.lastStep == step.name && proc.assignee == step.assignee && proc.isTask == db.proc.isTask
      && (p.status == Success || p.status == Skipped <==> proc.lastStatus == Running)
      && (p.status == Suspend <==> proc.lastStatus == Suspended)
      && (p.status == Waiting <==> proc.lastStatus == OnWaiting)
      && (p.status == AwaitingCallback <==> proc.lastStatus == OnAwaitingCallback)
      && (p.status == Abort <==> proc.lastStatus == Aborted)
      && (p.status == Failed <==> proc.lastStatus == HasFailed)
      && (p.status == Complete <==> proc.lastStatus == Completed)
  {
  }

  /** A failing task: inconsistent data goes to the network operators, an interface that cannot be reached and
      any other failure to the system. */
  lemma TaskRow(norm: Norm, db: Db, user: string, step: StepInfo, p: Process)
    requires p.status == Failed && db.proc.isTask
    ensures
      var proc := Logged(norm, db, user, step, p).0.proc;
      var kind := Get(p.s, ErrorClass);
      var code := Get(p.s, ErrorStatusCode);
      var unreachable :=
        || kind == Text("MaxRetryError")
        || (kind == Text("ApiException") && (code == Num(502) || code == Num(503) || code == Num(504)));
      && proc.lastStep == step.name && proc.isTask
      && if kind == Text("AssertionError") || kind == Text("InconsistentData")
         then proc.lastStatus == InconsistentData && proc.assignee == Noc
         else
           && proc.assignee == System
           && proc.lastStatus == if unreachable then ApiUnavailable else HasFailed
  {
  }

  /** All but a new, a running, an aborted and a completed process can be resumed. */
  lemma ResumableStatus(s: ProcessStatus)
    ensures CanBeResumed(s) <==> s != Created && s != Running && s != Aborted && s != Completed
  {
  }

  /** Resuming and aborting keep the state. What is completed is neither resumed nor aborted, what is aborted is
      not resumed. */
  lemma VariantsMove(p: Process)
    ensures p.Resuming().s == p.s && p.Aborting().s == p.s
    ensures p.Aborting().status == if p.status == Complete then Complete else Abort
    ensures p.Resuming().status
      == if p.status == Complete then Complete else if p.status == Abort then Abort else Success
  {
  }

  /** A process can be resumed exactly when its last step failed, waits or halted. */
  lemma ResumableAfter(norm: Norm, db: Db, user: string, step: StepInfo, p: Process)
    ensures
      var proc := Logged(norm, db, user, step, p).0.proc;
      CanBeResumed(proc.lastStatus)
      <==> p.status == Failed || p.status == Waiting || p.status == Suspend || p.status == AwaitingCallback
  {
  }
}
