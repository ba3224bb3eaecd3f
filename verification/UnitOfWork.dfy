/**
  AsyncUnitOfWork over a session it owns. The session is a durable state and a working state; a session
  call may raise, which the model leaves open (the `fails` arguments). An update that fails to commit is
  taken not to have reached the durable state, and closing a session discards its working state.
 */
module UnitsOfWork {
  import opened Outcomes

  /** The flags of the unit of work together with the session's two states. */
  datatype Uow<S> = Uow(
    durable: S, working: S, session: bool,
    active: bool, committed: bool, rolledBack: bool, closed: bool)

  datatype Op<!S(!new)> =
    | Mutate(f: S -> S)
    | Flush(fails: bool)
    | Commit(flushFails: bool, commitFails: bool, rollbackFails: bool)
    | Rollback(fails: bool)

  datatype UowError = NoSessionFactory | Closed | AlreadyCommitted | AlreadyRolledBack | Nested | SessionError

  predicate Usable<S>(u: Uow<S>) {
    !u.closed && u.active && u.session
  }

  /** rollback(): a failure of the session's rollback is logged and swallowed. */
  function RollbackSpec<S>(u: Uow<S>, fails: bool): Uow<S> {
    if u.closed || !u.session || u.rolledBack || fails then u
    else u.(working := u.durable, rolledBack := true)
  }

  function CommitSpec<S>(u: Uow<S>, flushFails: bool, commitFails: bool, rollbackFails: bool)
    : (Uow<S>, Option<UowError>)
  {
    if !Usable(u) then (u, Some(Closed))
    else if u.committed then (u, Some(AlreadyCommitted))
    else if u.rolledBack then (u, Some(AlreadyRolledBack))
    else if flushFails || commitFails then (RollbackSpec(u, rollbackFails), Some(SessionError))
    else (u.(durable := u.working, committed := true), None)
  }

  /** One operation inside the block, and the error it raises, if any. */
  function StepSpec<S(!new)>(u: Uow<S>, op: Op<S>): (Uow<S>, Option<UowError>) {
    match op
    case Mutate(f) => if Usable(u) then (u.(working := f(u.working)), None) else (u, Some(Closed))
    case Flush(fails) => (u, if !Usable(u) then Some(Closed) else if fails then Some(SessionError) else None)
    case Commit(ff, cf, rf) => CommitSpec(u, ff, cf, rf)
    case Rollback(fails) => (RollbackSpec(u, fails), None)
  }

  /** __aexit__: roll back on an exception or without a commit, then clean up whatever happened. */
  function ExitSpec<S>(u: Uow<S>, raised: bool, rollbackFails: bool): Uow<S> {
    var v := if raised || !u.committed then RollbackSpec(u, rollbackFails) else u;
    v.(active := false, closed := true, session := false, working := v.durable)
  }

  class UnitOfWork<S(!new)> {
    var durable: S
    var working: S
    var session: bool
    var active: bool
    var committed: bool
    var rolledBack: bool
    var closed: bool

    function State(): Uow<S>
      reads this
    {
      Uow(durable, working, session, active, committed, rolledBack, closed)
    }

    constructor (initial: S)
      ensures State() == Uow(initial, initial, false, false, false, false, false)
    {
      durable, working := initial, initial;
      session, active, committed, rolledBack, closed := false, false, false, false, false;
    }

    /** __aenter__ opens a session, except on a unit of work that is active or was closed, or without a factory. */
    method Enter(configured: bool) returns (error: Option<UowError>)
      modifies this
      ensures error.Some? <==> old(active || closed) || !configured
      ensures error.Some? ==> error == Some(if old(active || closed) then Nested else NoSessionFactory)
      ensures error.Some? ==> State() == old(State())
      ensures error.None? ==> State() == Uow(old(durable), old(durable), true, true, false, false, false)
    {
      if active || closed {
        return Some(Nested);
      }
      if !configured {
        return Some(NoSessionFactory);
      }
      session, working := true, durable;
      active, committed, rolledBack, closed := true, false, false, false;
      return None;
    }

    /** A repository call: it reaches the session only through an active unit of work. */
    method Mutate(f: S -> S) returns (error: Option<UowError>)
      modifies this
      ensures (State(), error) == StepSpec(old(State()), Op.Mutate(f))
    {
      if closed || !active || !session {
        return Some(Closed);
      }
      working := f(working);
      return None;
    }

    method Flush(fails: bool) returns (error: Option<UowError>)
      modifies this
      ensures (State(), error) == StepSpec(old(State()), Op<S>.Flush(fails))
    {
      if closed || !active || !session {
        return Some(Closed);
      }
      if fails {
        return Some(SessionError);
      }
      return None;
    }

    method Commit(flushFails: bool, commitFails: bool, rollbackFails: bool) returns (error: Option<UowError>)
      modifies this
      ensures (State(), error) == StepSpec(old(State()), Op<S>.Commit(flushFails, commitFails, rollbackFails))
      ensures error == old(if closed || !active || !session then Some(Closed)
                           else if committed then Some(AlreadyCommitted)
                           else if rolledBack then Some(AlreadyRolledBack)
                           else if flushFails || commitFails then Some(SessionError)
                           else None)
      ensures error == None ==> durable == working == old(working) && committed
      ensures error == Some(SessionError) && !rollbackFails ==> working == durable == old(durable) && rolledBack
      ensures error.Some? && !(error.value == SessionError && !rollbackFails) ==> State() == old(State())
    {
      if closed || !active || !session {
        return Some(Closed);
      }
      if committed {
        return Some(AlreadyCommitted);
      }
      if rolledBack {
        return Some(AlreadyRolledBack);
      }
      if flushFails || commitFails {
        Rollback(rollbackFails);
        return Some(SessionError);
      }
      durable := working;
      committed := true;
      return None;
    }

    method Rollback(fails: bool)
      modifies this
      ensures State() == RollbackSpec(old(State()), fails)
      ensures if old(closed || !session || rolledBack) || fails then State() == old(State())
              else State() == old(State()).(working := old(durable), rolledBack := true)
    {
      if closed || !session {
        return;
      }
      if !rolledBack {
        if !fails {
          working := durable;
          rolledBack := true;
        }
      }
    }

    method Exit(raised: bool, rollbackFails: bool)
      modifies this
      ensures State() == ExitSpec(old(State()), raised, rollbackFails)
      ensures durable == working == old(durable) && closed && !active && !session && committed == old(committed)
      ensures rolledBack <==>
              old(rolledBack) || (old(!closed && session) && (raised || !committed) && !rollbackFails)
    {
      if raised {
        Rollback(rollbackFails);
      } else if !committed {
        Rollback(rollbackFails);
      }
      Cleanup();
    }

    method Cleanup()
      modifies this
      ensures State() == old(State()).(active := false, closed := true, session := false, working := old(durable))
    {
      active, closed := false, true;
      session, working := false, durable;
    }
  }

  // ---------------------------------------------------------------------------------------------
  // Whole blocks
  // ---------------------------------------------------------------------------------------------

  /** The unit of work after a block of operations; the caller may catch the errors they raise. */
  function Block<S(!new)>(u: Uow<S>, ops: seq<Op<S>>): Uow<S> {
    if ops == [] then u else StepSpec(Block(u, ops[..|ops| - 1]), ops[|ops| - 1]).0
  }

  function Entered<S>(initial: S): Uow<S> {
    Uow(initial, initial, true, true, false, false, false)
  }

  /** Operation i of the block is a commit that returned normally. */
  predicate Committed<S(!new)>(initial: S, ops: seq<Op<S>>, i: nat)
    requires i < |ops|
  {
    ops[i].Commit? && StepSpec(Block(Entered(initial), ops[..i]), ops[i]).1 == None
  }

  lemma {:induction false} BlockStaysOpen<S(!new)>(initial: S, ops: seq<Op<S>>)
    ensures var u := Block(Entered(initial), ops);
            u.session && u.active && !u.closed && (!u.committed ==> u.durable == initial)
    ensures var u := Block(Entered(initial), ops);
            u.committed <==> exists i: nat :: i < |ops| && Committed(initial, ops, i)
  {
    if ops != [] {
      var n := |ops| - 1;
      var before := ops[..n];
      BlockStaysOpen(initial, before);
      forall i: nat | i < n ensures Committed(initial, ops, i) <==> Committed(initial, before, i) {
        assert before[..i] == ops[..i];
      }
      var u := Block(Entered(initial), ops);
      if u.committed {
        if Block(Entered(initial), before).committed {
          var i: nat :| i < n && Committed(initial, before, i);
          assert Committed(initial, ops, i);
        } else {
          assert Committed(initial, ops, n);
        }
      }
    }
  }

  /** At most one commit of a block returns normally, and from then on the durable state stands. */
  lemma {:induction false} CommitIsFinal<S(!new)>(initial: S, ops: seq<Op<S>>, i: nat)
    requires i < |ops| && Committed(initial, ops, i)
    ensures Block(Entered(initial), ops).durable == Block(Entered(initial), ops[..i]).working
    ensures forall j: nat | j < |ops| && Committed(initial, ops, j) :: j == i
  {
    var n := |ops| - 1;
    var before := ops[..n];
    BlockStaysOpen(initial, before);
    if i < n {
      assert before[..i] == ops[..i];
      CommitIsFinal(initial, before, i);
      forall j: nat | j < n ensures Committed(initial, ops, j) <==> Committed(initial, before, j) {
        assert before[..j] == ops[..j];
      }
      assert Block(Entered(initial), before).committed;
      assert !Committed(initial, ops, n);
    } else {
      forall j: nat | j < n && Committed(initial, ops, j) ensures false {
        assert before[..j] == ops[..j];
        assert Committed(initial, before, j);
      }
    }
  }

  /**
    All or nothing: whatever the block did, and whether or not it left by an exception, the durable state
    at exit is the one at entry unless a commit returned normally, and then it is the working state at
    that commit.
   */
  lemma Atomicity<S(!new)>(initial: S, ops: seq<Op<S>>, raised: bool, rollbackFails: bool)
    ensures var final := ExitSpec(Block(Entered(initial), ops), raised, rollbackFails);
            && !Usable(final)
            && ((forall i: nat | i < |ops| :: !Committed(initial, ops, i)) ==> final.durable == initial)
            && (forall i: nat | i < |ops| && Committed(initial, ops, i) ::
                  final.durable == Block(Entered(initial), ops[..i]).working)
  {
    BlockStaysOpen(initial, ops);
    forall i: nat | i < |ops| && Committed(initial, ops, i)
      ensures Block(Entered(initial), ops).durable == Block(Entered(initial), ops[..i]).working
    {
      CommitIsFinal(initial, ops, i);
    }
  }

  /** The operations of a closed unit of work all raise, and leave the durable state alone. */
  lemma ClosedForGood<S(!new)>(u: Uow<S>, op: Op<S>)
    requires u.closed
    ensures StepSpec(u, op).0 == u && (!op.Rollback? ==> StepSpec(u, op).1 == Some(Closed))
  {
  }

  lemma {:induction false} WritesKeepTheFlags<S(!new)>(u: Uow<S>, writes: seq<Op<S>>)
    requires forall op :: op in writes ==> op.Mutate? || op.Flush?
    ensures var v := Block(u, writes);
            v.committed == u.committed && v.rolledBack == u.rolledBack && Usable(v) == Usable(u)
  {
    if writes != [] {
      WritesKeepTheFlags(u, writes[..|writes| - 1]);
    }
  }

  /**
    After a rollback() in the block, a later commit persists the writes made in between exactly when the
    session's own rollback failed, because that failure is swallowed without setting the flag that commit()
    checks.
   */
  lemma {:induction false} CommitAfterRollbackIff<S(!new)>(u: Uow<S>, fails: bool, writes: seq<Op<S>>)
    requires Usable(u) && !u.committed && !u.rolledBack
    requires forall op :: op in writes ==> op.Mutate? || op.Flush?
    ensures var v := Block(RollbackSpec(u, fails), writes);
            var (w, error) := StepSpec(v, Commit(false, false, false));
            if fails then error == None && w.durable == v.working
            else error == Some(AlreadyRolledBack) && w.durable == v.durable
  {
    WritesKeepTheFlags(RollbackSpec(u, fails), writes);
  }

  /** A rollback that succeeds is final: no later commit of the block returns normally. */
  lemma {:induction false} RollbackIsFinal<S(!new)>(u: Uow<S>, ops: seq<Op<S>>)
    requires u.rolledBack
    ensures Block(u, ops).rolledBack && Block(u, ops).durable == u.durable
    ensures forall i: nat | i < |ops| && ops[i].Commit? :: StepSpec(Block(u, ops[..i]), ops[i]).1 != None
  {
    if ops != [] {
      var n := |ops| - 1;
      var before := ops[..n];
      RollbackIsFinal(u, before);
      forall i: nat | i < n && ops[i].Commit? ensures StepSpec(Block(u, ops[..i]), ops[i]).1 != None {
        assert before[..i] == ops[..i] && before[i] == ops[i];
      }
    }
  }
}
