/** Blocks that commit all writes or none, however they are nested. */
module Transactions {

  type Write = nat

  /** What code does with the session. `Interrupt` raises something that is not an `Exception`. */
  datatype Code =
    | Pass
    | Add(write: Write)
    | Commit
    | Raise
    | Interrupt
    | Then(first: Code, second: Code)
    | Try(body: Code, handler: Code)
    | DisableCommit(body: Code)
    | Transactional(body: Code)

  datatype Outcome = Done | Raised | Interrupted

  /** The session and its database. `seen` is what a crash would have left after each operation so far. */
  datatype State = State(durable: seq<Write>, pending: seq<Write>, disabled: bool, seen: seq<seq<Write>>) {
    function Noted(): State {
      this.(seen := seen + [durable])
    }
  }

  /** Which contents the database accepts when they are committed. */
  type Accepts = seq<Write> -> bool

  /** `Session.commit` of the base class: a refused commit is rolled back and raised. */
  function Committed(ok: Accepts, s: State): (State, Outcome) {
    var all := s.durable + s.pending;
    if ok(all) then (s.(durable := all, pending := []).Noted(), Done) else (s.(pending := []).Noted(), Raised)
  }

  function RolledBack(s: State): State {
    s.(pending := []).Noted()
  }

  /** What code does. */
  function Exec(ok: Accepts, c: Code, s: State): (State, Outcome) {
    match c
    case Pass => (s, Done)
    case Add(w) => (s.(pending := s.pending + [w]).Noted(), Done)
    case Commit => if s.disabled then (s, Done) else Committed(ok, s)
    case Raise => (s, Raised)
    case Interrupt => (s, Interrupted)
    case Then(a, b) =>
      var r := Exec(ok, a, s);
      if r.1 == Done then Exec(ok, b, r.0) else r
    case Try(a, b) =>
      var r := Exec(ok, a, s);
      if r.1 == Raised then Exec(ok, b, r.0) else r
    case DisableCommit(a) =>
      if s.disabled then Exec(ok, a, s)
      else
        var r := Exec(ok, a, s.(disabled := true));
        (r.0.(disabled := false), r.1)
    case Transactional(a) =>
      if s.disabled then Exec(ok, a, s)
      else
        var r := Exec(ok, a, s.(disabled := true));
        var t := r.0.(disabled := false);
        match r.1
        case Done =>
          var d := Committed(ok, t);
          if d.1 == Done then d else (RolledBack(d.0), Raised)
        case Raised => (RolledBack(t), Raised)
        case Interrupted => (t, Interrupted)
  }

  // ---- the session --------------------------------------------------------------------------------

  class Session {
    const ok: Accepts
    var durable: seq<Write>
    var pending: seq<Write>
    /** `info["disabled"]` */
    var disabled: bool
    ghost var seen: seq<seq<Write>>

    constructor (ok: Accepts)
      ensures View() == State([], [], false, []) && this.ok == ok
    {
      this.ok, durable, pending, disabled, seen := ok, [], [], false, [];
    }

    ghost function View(): State
      reads this
    {
      State(durable, pending, disabled, seen)
    }

    method Insert(w: Write)
      modifies this
      ensures View() == Exec(ok, Add(w), old(View())).0
    {
      pending := pending + [w];
      seen := seen + [durable];
    }

    method BaseCommit() returns (o: Outcome)
      modifies this
      ensures (View(), o) == Committed(ok, old(View()))
    {
      if ok(durable + pending) {
        durable, o := durable + pending, Done;
      } else {
        o := Raised;
      }
      pending := [];
      seen := seen + [durable];
    }

    /** `WrappedSession.commit` */
    method CommitIfEnabled() returns (o: Outcome)
      modifies this
      ensures (View(), o) == Exec(ok, Commit, old(View()))
    {
      o := Done;
      if !disabled {
        o := BaseCommit();
      }
    }

    method Rollback()
      modifies this
      ensures View() == RolledBack(old(View()))
    {
      pending := [];
      seen := seen + [durable];
    }

    method Run(c: Code) returns (o: Outcome)
      modifies this
      ensures (View(), o) == Exec(ok, c, old(View()))
      decreases c, 0
    {
      match c {
        case Pass => o := Done;
        case Add(w) =>
          Insert(w);
          o := Done;
        case Commit => o := CommitIfEnabled();
        case Raise => o := Raised;
        case Interrupt => o := Interrupted;
        case Then(a, b) =>
          o := Run(a);
          if o == Done {
            o := Run(b);
          }
        case Try(a, b) =>
          o := Run(a);
          if o == Raised {
            o := Run(b);
          }
        case DisableCommit(a) => o := WithCommitDisabled(a);
        case Transactional(a) => o := InTransaction(a);
      }
    }

    /** `with disable_commit(db, log)`: the flag is set back whatever the block does, by the block that set it. */
    method WithCommitDisabled(body: Code) returns (o: Outcome)
      modifies this
      ensures (View(), o) == Exec(ok, DisableCommit(body), old(View()))
      decreases body, 1
    {
      if disabled {
        o := Run(body);
        return;
      }
      disabled := true;
      o := Run(body);
      disabled := false;
    }

    /** `with transactional(db, log)` */
    method InTransaction(body: Code) returns (o: Outcome)
      modifies this
      ensures (View(), o) == Exec(ok, Transactional(body), old(View()))
      decreases body, 2
    {
      if disabled {
        o := Run(body);
        return;
      }
      o := WithCommitDisabled(body);
      if o == Done {
        o := CommitIfEnabled();
      }
      if o == Raised {
        Rollback();
      }
    }
  }

  // ---- all or nothing -----------------------------------------------------------------------------

  /** What code writes and how it ends, if there were no transactions: only exceptions decide. */
  function Plain(c: Code): (seq<Write>, Outcome) {
    match c
    case Pass => ([], Done)
    case Add(w) => ([w], Done)
    case Commit => ([], Done)
    case Raise => ([], Raised)
    case Interrupt => ([], Interrupted)
    case Then(a, b) => if Plain(a).1 == Done then (Plain(a).0 + Plain(b).0, Plain(b).1) else Plain(a)
    case Try(a, b) => if Plain(a).1 == Raised then (Plain(a).0 + Plain(b).0, Plain(b).1) else Plain(a)
    case DisableCommit(a) => Plain(a)
    case Transactional(a) => Plain(a)
  }

  /** The same contents, seen at all times in between. */
  ghost predicate Unmoved(s: State, r: State, what: seq<Write>) {
    |s.seen| <= |r.seen| && s.seen == r.seen[..|s.seen|] && forall i | |s.seen| <= i < |r.seen| :: r.seen[i] == what
  }

  /** While commit is disabled, code only adds to what is pending: nothing that it does, no commit and no
      block in it, becomes durable or is lost, at any time. */
  lemma {:induction false} NothingInside(ok: Accepts, c: Code, s: State)
    requires s.disabled
    ensures var r := Exec(ok, c, s);
      && r.0.durable == s.durable
      && r.0.pending == s.pending + Plain(c).0
      && r.0.disabled
      && r.1 == Plain(c).1
      && Unmoved(s, r.0, s.durable)
  {
    match c
    case Pass =>
    case Add(w) =>
    case Commit =>
    case Raise =>
    case Interrupt =>
    case Then(a, b) =>
      NothingInside(ok, a, s);
      if Plain(a).1 == Done {
        NothingInside(ok, b, Exec(ok, a, s).0);
      }
    case Try(a, b) =>
      NothingInside(ok, a, s);
      if Plain(a).1 == Raised {
        NothingInside(ok, b, Exec(ok, a, s).0);
      }
    case DisableCommit(a) => NothingInside(ok, a, s);
    case Transactional(a) => NothingInside(ok, a, s);
  }

  /** Whatever code does, it leaves the flag as it was. */
  lemma {:induction false} FlagRestored(ok: Accepts, c: Code, s: State)
    ensures Exec(ok, c, s).0.disabled == s.disabled
  {
    match c
    case Pass =>
    case Add(w) =>
    case Commit =>
    case Raise =>
    case Interrupt =>
    case Then(a, b) =>
      FlagRestored(ok, a, s);
      FlagRestored(ok, b, Exec(ok, a, s).0);
    case Try(a, b) =>
      FlagRestored(ok, a, s);
      FlagRestored(ok, b, Exec(ok, a, s).0);
    case DisableCommit(a) => FlagRestored(ok, a, s);
    case Transactional(a) => FlagRestored(ok, a, s);
  }

  /** Main theorem: an outermost block that ends makes all pending writes durable, those before it and all
      its own; one that raises, or whose commit is refused, none. Nothing is durable before it ends. Only an
      interrupt leaves writes pending. */
  lemma {:induction false} AllOrNothing(ok: Accepts, body: Code, s: State)
    requires !s.disabled
    ensures var r := Exec(ok, Transactional(body), s);
      var all := s.pending + Plain(body).0;
      && (r.1 == Done <==> Plain(body).1 == Done && ok(s.durable + all))
      && (r.1 == Interrupted <==> Plain(body).1 == Interrupted)
      && r.0.durable == (if r.1 == Done then s.durable + all else s.durable)
      && r.0.pending == (if r.1 == Interrupted then all else [])
      && !r.0.disabled
      && s.seen <= r.0.seen
      && forall i | |s.seen| <= i < |r.0.seen| :: r.0.seen[i] == if i == |r.0.seen| - 1 then r.0.durable else s.durable
  {
    NothingInside(ok, body, s.(disabled := true));
    assert s.durable + (s.pending + Plain(body).0) == (s.durable + s.pending) + Plain(body).0;
  }

  /** Without a block around it, code never takes back what is durable. */
  lemma {:induction false} DurableStays(ok: Accepts, c: Code, s: State)
    ensures s.durable <= Exec(ok, c, s).0.durable
    decreases c
  {
    if s.disabled {
      NothingInside(ok, c, s);
    } else {
      match c
      case Pass =>
      case Add(w) =>
      case Commit =>
      case Raise =>
      case Interrupt =>
      case Then(a, b) =>
        DurableStays(ok, a, s);
        DurableStays(ok, b, Exec(ok, a, s).0);
      case Try(a, b) =>
        DurableStays(ok, a, s);
        DurableStays(ok, b, Exec(ok, a, s).0);
      case DisableCommit(a) => DurableStays(ok, a, s.(disabled := true));
      case Transactional(a) => AllOrNothing(ok, a, s);
    }
  }

  /** Outside any block a commit makes all that is pending durable, or when it is refused none of it. */
  lemma CommitOutside(ok: Accepts, s: State)
    requires !s.disabled
    ensures
      var r := Exec(ok, Commit, s);
      var all := s.durable + s.pending;
      && r.1 == (if ok(all) then Done else Raised) && r.0.pending == [] && !r.0.disabled
      && r.0.durable == (if ok(all) then all else s.durable)
  {
  }

  /** Code for which commit is disabled leaves all its writes pending, however it ends, and the flag as it was. */
  lemma DisabledStaysPending(ok: Accepts, body: Code, s: State)
    ensures
      var r := Exec(ok, DisableCommit(body), s);
      && r.0.durable == s.durable && r.0.pending == s.pending + Plain(body).0 && r.1 == Plain(body).1
      && r.0.disabled == s.disabled && Unmoved(s, r.0, s.durable)
  {
    NothingInside(ok, body, s.(disabled := true));
  }

  /** A workflow step: its function runs in a block, and its exceptions become a failed process. */
  function Step(f: Code): Code {
    Try(Transactional(f), Pass)
  }

  /** A step whose function raises, or whose writes are refused, leaves nothing of its own, durable or
      pending, whatever it committed and whatever blocks it had; the engine goes on. */
  lemma FailedStepLeavesNothing(ok: Accepts, f: Code, s: State)
    requires !s.disabled
    requires Plain(f).1 == Raised || (Plain(f).1 == Done && !ok(s.durable + (s.pending + Plain(f).0)))
    ensures var r := Exec(ok, Step(f), s);
      r.1 == Done && r.0.durable == s.durable && r.0.pending == [] && !r.0.disabled
  {
    AllOrNothing(ok, f, s);
  }
}
