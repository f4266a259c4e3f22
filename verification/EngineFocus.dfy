/** Focusing on one key of the state: running the focused steps is running the steps on what is under
    the key. */
module EngineFocus {
  import opened ProcessTypes
  import opened StepLog
  import opened Engine

  /** `state.get(key, {})`, of a state that has a dict under the key or nothing. */
  function Under(s: State, key: Key): State {
    if key in s && s[key].Obj? then s[key].fields else map[]
  }

  /** `steplens` with the getter and the setter of one key. */
  function Focused(key: Key, leaf: Leaf): Leaf {
    Leaf(leaf.info, (s: State, t: nat) =>
      var r := leaf.run(Under(s, key), t);
      if r.status.Errs() then r else Process(r.status, s[key := Obj(r.s)]))
  }

  /** `focussteps` */
  function FocusSteps(key: Key, leaves: seq<Leaf>): (r: seq<Step>)
    ensures |r| == |leaves|
  {
    seq(|leaves|, i requires 0 <= i < |leaves| => Single(Focused(key, leaves[i])))
  }

  function Steps(leaves: seq<Leaf>): (r: seq<Step>)
    ensures |r| == |leaves|
  {
    seq(|leaves|, i requires 0 <= i < |leaves| => Single(leaves[i]))
  }

  /** The keys that steer the log and the engine. */
  const CONTROL: set<Key> := {SubStep, StepGroup, StepNameOverride, ReplaceLastState, RemoveKeys, StartedAt}

  /** A step that does not look at its start time and does not set control keys. */
  ghost predicate Plain(leaf: Leaf) {
    && (forall s: State, a: Val, t: nat {:trigger leaf.run(s[StartedAt := a], t)} ::
          var p, q := leaf.run(s[StartedAt := a], t), leaf.run(s, t);
          p.status == q.status && p.s - {StartedAt} == q.s - {StartedAt})
    && (forall s: State, t: nat {:trigger leaf.run(s, t)} :: s.Keys !! CONTROL && !leaf.run(s, t).status.Errs() ==>
          leaf.run(s, t).s.Keys !! CONTROL)
  }

  lemma PlainRuns(leaf: Leaf, s: State, a: Val, t: nat)
    requires Plain(leaf) && s.Keys !! CONTROL
    ensures var p, q := leaf.run(s[StartedAt := a], t), leaf.run(s, t);
      && p.status == q.status && p.s - {StartedAt} == q.s - {StartedAt}
      && (!q.status.Errs() ==> q.s.Keys !! CONTROL)
  {
  }

  /** JSON converts a dict key by key, and the dicts in it in the same way. */
  ghost predicate NestedNorm(norm: Norm) {
    && (forall s: State {:trigger norm(s)} :: norm(s).Keys == s.Keys)
    && (forall s: State, k: Key {:trigger norm(s)[k]} :: k in s && s[k].Obj? ==> norm(s)[k] == Obj(norm(s[k].fields)))
    && (forall s: State, t: State, k: Key {:trigger norm(s)[k], norm(t)[k]} ::
          k in s && k in t && s[k] == t[k] ==> norm(s)[k] == norm(t)[k])
  }

  lemma CleanedPlain(s: State)
    requires s.Keys !! CONTROL - {StartedAt}
    ensures Cleaned(s) == s - {StartedAt}
  {
    assert RemoveKeys !in s;
  }

  /** A step that does not fail and does not steer the log is logged as it ended. */
  lemma LoggedPlain(norm: Norm, db: Db, user: string, step: StepInfo, p: Process)
    requires !p.status.Errs() && p.s.Keys !! CONTROL - {StartedAt}
    ensures var (d, q) := Logged(norm, db, user, step, p);
      d.now == db.now + 1 && q == Process(p.status, norm(p.s - {StartedAt}))
  {
    CleanedPlain(p.s);
    assert ReplaceLastState !in p.s;
  }

  /** The focused run is where the run on the state under the key is. */
  ghost predicate Matches(key: Key, rest: State, p: Process, q: Process) {
    && p.status == q.status
    && (!p.status.Errs() ==>
          && (key in p.s ==> p.s[key].Obj?) && Under(p.s, key) == q.s && p.s - {key} == rest - {key}
          && p.s.Keys !! CONTROL && q.s.Keys !! CONTROL)
  }

  /** One turn of both runs. */
  lemma FocusTurn(env: Env, user: string, key: Key, leaf: Leaf, rest: State, p: Process, db: Db,
      q: Process, e: Db)
    requires NestedNorm(env.norm) && Plain(leaf) && key !in CONTROL && env.norm(rest) == rest
    requires p.status.Runs() && db.now == e.now && Matches(key, rest, p, q)
    ensures var ((p', db'), (q', e')) :=
        (Turn(env, user, Single(Focused(key, leaf)), p, db), Turn(env, user, Single(leaf), q, e));
      Matches(key, rest, p', q') && db'.now == e'.now
  {
    hide Logged, Plain, NestedNorm;
    var at, now := Num(db.now), db.now;
    var s := p.s + map[StartedAt := at];
    var inner, outer := leaf.run(q.s, now), Focused(key, leaf).run(s, now);
    var timed := leaf.run(q.s[StartedAt := at], now);
    assert q.s + map[StartedAt := at] == q.s[StartedAt := at];
    assert Under(s, key) == q.s;
    PlainRuns(leaf, q.s, at, now);
    var db1, e1 := Called(db, leaf.info, leaf.info), Called(e, leaf.info, leaf.info);
    if inner.status.Errs() {
      LoggedStatus(env.norm, db1, user, leaf.info, outer);
      LoggedStatus(env.norm, e1, user, leaf.info, timed);
    } else {
      FocusRuns(env.norm, user, key, leaf, p.s, s, inner, timed, db1, e1);
      FocusStored(env.norm, key, rest, p.s, inner.s);
    }
  }

  /** A turn that does not fail stores what the step ended with, under the key or as it is. */
  lemma FocusRuns(norm: Norm, user: string, key: Key, leaf: Leaf, before: State, s: State,
      inner: Process, timed: Process, db: Db, e: Db)
    requires key !in CONTROL && before.Keys !! CONTROL && inner.s.Keys !! CONTROL && !inner.status.Errs()
    requires s == before + map[StartedAt := Num(db.now)]
    requires timed.status == inner.status && timed.s - {StartedAt} == inner.s - {StartedAt}
    ensures var (d, p) := Logged(norm, db, user, leaf.info, Process(inner.status, s[key := Obj(inner.s)]));
      d.now == db.now + 1 && p == Process(inner.status, norm(before[key := Obj(inner.s)]))
    ensures var (d, q) := Logged(norm, e, user, leaf.info, timed);
      d.now == e.now + 1 && q == Process(inner.status, norm(inner.s))
  {
    hide Logged;
    assert inner.s - {StartedAt} == inner.s;
    assert forall k | k in timed.s && k != StartedAt :: k in timed.s - {StartedAt};
    var outer := Process(inner.status, s[key := Obj(inner.s)]);
    assert outer.s - {StartedAt} == before[key := Obj(inner.s)];
    LoggedPlain(norm, db, user, leaf.info, outer);
    LoggedPlain(norm, e, user, leaf.info, timed);
  }

  lemma LoggedStatus(norm: Norm, db: Db, user: string, step: StepInfo, p: Process)
    ensures var (d, q) := Logged(norm, db, user, step, p);
      d.now == db.now + 1 && q.status == p.status
  {
  }

  /** What is stored next to the key. */
  lemma RestStored(norm: Norm, key: Key, rest: State, before: State, inner: State)
    requires NestedNorm(norm) && norm(rest) == rest && before - {key} == rest - {key}
    ensures norm(before[key := Obj(inner)]) - {key} == rest - {key}
  {
    var full := before[key := Obj(inner)];
    assert norm(full).Keys == full.Keys;
    forall k | k in full && k != key
      ensures k in rest && norm(full)[k] == rest[k]
    {
      assert k in before - {key};
      assert full[k] == (before - {key})[k] == (rest - {key})[k] == rest[k];
      assert norm(full)[k] == norm(rest)[k];
    }
    forall k | k in rest && k != key
      ensures k in full
    {
      assert k in rest - {key};
    }
  }

  /** What is stored, under the key and next to it. */
  lemma FocusStored(norm: Norm, key: Key, rest: State, before: State, inner: State)
    requires NestedNorm(norm) && key !in CONTROL && norm(rest) == rest
    requires before - {key} == rest - {key} && before.Keys !! CONTROL && inner.Keys !! CONTROL
    ensures var stored := norm(before[key := Obj(inner)]);
      && key in stored && stored[key] == Obj(norm(inner)) && stored - {key} == rest - {key}
      && stored.Keys !! CONTROL && norm(inner).Keys !! CONTROL
  {
    var full := before[key := Obj(inner)];
    assert key in full && full[key] == Obj(inner);
    assert norm(full)[key] == Obj(norm(inner));
    assert norm(full).Keys == before.Keys + {key} && norm(inner).Keys == inner.Keys;
    RestStored(norm, key, rest, before, inner);
  }

  /** Main theorem: focusing commutes with running. The focused run ends in the same variant as the run on
      the state under the key; unless a step failed or waits, its state has there what that run ends
      with, and all other keys as they were. */
  lemma {:induction false} FocusCommutes(env: Env, user: string, key: Key, leaves: seq<Leaf>, i: nat,
      rest: State, p: Process, db: Db, q: Process, e: Db)
    requires NestedNorm(env.norm) && key !in CONTROL && env.norm(rest) == rest
    requires forall j | 0 <= j < |leaves| :: Plain(leaves[j])
    requires i <= |leaves| && db.now == e.now && Matches(key, rest, p, q)
    ensures
      var focused := Exec(env, user, FocusSteps(key, leaves), i, p, db).0;
      Matches(key, rest, focused, Exec(env, user, Steps(leaves), i, q, e).0)
    decreases |leaves| - i
  {
    hide Turn, Plain, NestedNorm;
    if i < |leaves| && p.status.Runs() && !env.lock(false, db.now) {
      FocusTurn(env, user, key, leaves[i], rest, p, db, q, e);
      var (p', db') := Turn(env, user, Single(Focused(key, leaves[i])), p, db);
      var (q', e') := Turn(env, user, Single(leaves[i]), q, e);
      FocusCommutes(env, user, key, leaves, i + 1, rest, p', db', q', e');
    }
  }
}
