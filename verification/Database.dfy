/**
  The shared database object and the statements that the repositories send it. `Await` stands for every
  point where a repository yields to the event loop: any number of statements of other workers may run.
 */
module Databases {
  import opened Outcomes
  import opened Rows
  import opened Transactions
  import opened Store
  import AuditSteps
  import BudgetSteps
  import NonceSteps
  import ReplaySteps
  import ChallengeSteps
  import TransactionSteps
  import ReservedTotals
  import Sets

  datatype Reply = Done | Waiting | RolledBack

  function ReplyOf(r: Effect): Reply {
    match r
    case Next(_) => Done
    case Blocked => Waiting
    case Failed => RolledBack
  }

  /** The transaction after a SELECT ... FOR UPDATE that did not have to wait. */
  function Locking(t: Txn, key: Key, tables: Tables): Txn {
    if Present(Overlay(tables, t.pending), key) then t.(locks := t.locks + {key}) else t
  }

  ghost predicate LocksOnly(t: Txn, t': Txn) {
    t' == t.(locks := t'.locks) && t.locks <= t'.locks
  }

  /** Locking changes nothing but the locks. */
  lemma LockingKeeps(t: Txn, key: Key, tables: Tables)
    ensures LocksOnly(t, Locking(t, key, tables))
    ensures Present(Overlay(tables, t.pending), key) ==> key in Locking(t, key, tables).locks
  {
  }

  /** SELECT ... ORDER BY sequence_number DESC LIMIT 1. */
  method FindLatest(rows: map<int, AuditRow>) returns (latest: Option<AuditRow>)
    ensures latest == AuditSteps.Latest(rows)
  {
    latest := None;
    var best, left := 0, rows.Keys;
    while left != {}
      invariant left <= rows.Keys
      invariant latest.None? ==> left == rows.Keys
      invariant latest.Some? ==> best in rows && latest.value == rows[best]
      invariant forall j | j in rows && j !in left :: j <= best
      decreases left
    {
      ghost var some := Sets.NonEmpty(left);
      var k :| k in left;
      if latest.None? || k > best {
        best, latest := k, Some(rows[k]);
      }
      left := left - {k};
    }
    AuditSteps.LatestIsUnique(rows, latest);
  }

  /** SELECT coalesce(sum(reserved_paise), 0) over the active reservations of a mandate. */
  method SumReserved(rows: map<Id, Reservation>, mandate: Id) returns (total: nat)
    ensures total == BudgetSteps.ReservedTotal(rows, mandate)
  {
    total := 0;
    var left := rows.Keys;
    while left != {}
      invariant left <= rows.Keys
      invariant total + BudgetSteps.SumOver(left, rows, mandate) == BudgetSteps.ReservedTotal(rows, mandate)
      decreases left
    {
      var id :| id in left;
      ReservedTotals.SumTakes(left, rows, mandate, id);
      total := total + BudgetSteps.WeightAt(rows, id, mandate);
      left := left - {id};
    }
  }

  class Database {
    const codec: AuditSteps.Codec
    ghost const start: World
    var world: World
    ghost var log: seq<Event>

    /** The world is the outcome of a run from a quiet database. */
    ghost predicate Valid()
      reads this
    {
      Quiet(start) && world == Exec(codec, start, log)
    }

    constructor (codec: AuditSteps.Codec, tables: Tables)
      ensures Valid() && world == World(tables, map[], []) && log == [] && this.codec == codec && start == world
    {
      this.codec := codec;
      world := World(tables, map[], []);
      start := World(tables, map[], []);
      log := [];
    }

    /** The world at some point of the run after `since`, so of the call that began then. */
    ghost predicate Reached(since: seq<Event>, seen: World)
      reads this
    {
      exists before :: since <= before <= log && seen == Exec(codec, start, before)
    }

    /** At such a point another transaction owned the row. */
    ghost predicate Contended(since: seq<Event>, me: Worker, key: Key)
      reads this
    {
      exists seen :: Reached(since, seen) && key in HeldByOthers(seen, me)
    }

    lemma ContendedSince(earlier: seq<Event>, since: seq<Event>, me: Worker, key: Key)
      requires earlier <= since && Contended(since, me, key)
      ensures Contended(earlier, me, key)
    {
      var seen :| Reached(since, seen) && key in HeldByOthers(seen, me);
      assert Reached(earlier, seen);
    }

    /** Other workers run; `me` only waits. */
    method Await(ghost me: Worker)
      requires Valid()
      modifies this
      ensures Valid() && old(log) <= log && Foreign(log[|old(log)|..], me)
    {
    }

    lemma Isolation()
      requires Valid()
      ensures Isolated(world)
    {
      ExecIsolated(codec, start, log);
    }

    /** A statement whose effect needs no query: anything but a COMMIT or one of the two read statements. */
    method Execute(me: Worker, a: Store.Action) returns (reply: Reply)
      requires Valid() && a != Store.Commit
      requires !(a.Audit? && a.audit.ReadLatest?) && !(a.Budget? && a.budget.ReadReserved?)
      modifies this
      ensures Valid() && log == old(log) + [Event(me, a)]
      ensures world == Apply(codec, old(world), Event(me, a))
      ensures reply == ReplyOf(Store.Effects(codec, old(world).tables, TxnOf(old(world), me),
                                             HeldByOthers(old(world), me), a))
    {
      var r := Evaluate(me, a);
      match r {
        case Next(t) => world := world.(open := world.open[me := t]);
        case Blocked =>
        case Failed => world := world.(open := world.open - {me});
      }
      reply := ReplyOf(r);
      Logged(Event(me, a));
    }

    /** The effect of a statement on the transaction of `me`. */
    method Evaluate(me: Worker, a: Store.Action) returns (r: Effect)
      requires a != Store.Commit
      requires !(a.Audit? && a.audit.ReadLatest?) && !(a.Budget? && a.budget.ReadReserved?)
      ensures r == Store.Effects(codec, world.tables, TxnOf(world, me), HeldByOthers(world, me), a)
    {
      var txn, held := TxnOf(world, me), HeldByOthers(world, me);
      var view := Overlay(world.tables, txn.pending);
      match a {
        case LockRow(key) => r := Lock(view, txn, held, key);
        case Audit(b) => r := AuditSteps.AppendEffect(codec, view, txn, held, b.draft, b.refused);
        case Budget(b) => r := BudgetSteps.WriteEffect(view, txn, held, b);
        case Nonce(b) => r := NonceSteps.Effects(view, txn, held, b);
        case Replay(b) => r := ReplaySteps.Effects(view, txn, held, b);
        case StepUp(b) => r := ChallengeSteps.Effects(view, txn, held, b);
        case Pay(b) => r := TransactionSteps.Effects(view, txn, held, b);
        case Raise => r := Raised(txn);
        case Abort => r := Failed;
      }
    }

    /** Await, with what the caller keeps: its transaction, and every row it owns. */
    method Yield(ghost me: Worker)
      requires Valid()
      modifies this
      ensures Valid() && old(log) <= log
      ensures Isolated(world) && StandsFor(world, old(world), me)
    {
      ghost var before := log;
      Await(me);
      OthersRan(codec, start, before, log, me);
    }

    /** A statement sent at once; one that would have to wait fails, which rolls `me` back. */
    method Attempt(me: Worker, a: Store.Action) returns (reply: Reply)
      requires Valid() && a != Store.Commit && a != Store.Abort
      requires !(a.Audit? && a.audit.ReadLatest?) && !(a.Budget? && a.budget.ReadReserved?)
      modifies this
      ensures Valid() && old(log) <= log
      ensures Met(old(world), me,
                  Store.Effects(codec, old(world).tables, TxnOf(old(world), me), HeldByOthers(old(world), me), a),
                  reply)
    {
      reply := Execute(me, a);
      if reply == Waiting {
        Drop(me);
      }
    }

    method Drop(me: Worker)
      requires Valid()
      modifies this
      ensures Valid() && old(log) <= log && world.tables == old(world).tables && me !in world.open
    {
      var ended := Execute(me, Store.Abort);
    }

    /**
      A statement sent after yielding: other workers may run first, and a row still owned by another
      transaction fails the statement. `seen` is the world the statement met.
     */
    method Send(me: Worker, a: Store.Action) returns (reply: Reply, ghost seen: World)
      requires Valid() && a != Store.Commit && a != Store.Abort
      requires !(a.Audit? && a.audit.ReadLatest?) && !(a.Budget? && a.budget.ReadReserved?)
      modifies this
      ensures Valid() && old(log) <= log
      ensures StandsFor(seen, old(world), me)
      ensures Met(seen, me, Store.Effects(codec, seen.tables, TxnOf(seen, me), HeldByOthers(seen, me), a), reply)
      ensures Reached(old(log), seen)
    {
      Yield(me);
      seen := world;
      ghost var before := log;
      assert seen == Exec(codec, start, before);
      reply := Attempt(me, a);
      assert before <= log;
    }

    /** The statement met `seen`, had the effect `r` there, and ended the transaction unless it was done. */
    ghost predicate Met(seen: World, me: Worker, r: Effect, reply: Reply)
      reads this
    {
      && reply == ReplyOf(r)
      && world.tables == seen.tables
      && (r.Next? ==> TxnOf(world, me) == r.txn)
      && (!r.Next? ==> me !in world.open)
    }

    /** A check in Python raises: the transaction is marked, nothing else happens. */
    method Fail(me: Worker)
      requires Valid()
      modifies this
      ensures Valid() && old(log) <= log && world.tables == old(world).tables
      ensures TxnOf(world, me) == TxnOf(old(world), me).(raised := true)
    {
      var reply := Execute(me, Store.Raise);
    }

    /** SELECT ... FOR UPDATE: the row is locked if it exists, or the wait for it fails. */
    method LockForUpdate(me: Worker, key: Key) returns (locked: bool)
      requires Valid()
      modifies this
      ensures Valid() && old(log) <= log
      ensures !locked ==> me !in world.open && Contended(old(log), me, key)
      ensures locked ==> world.tables.mandates == old(world).tables.mandates
      ensures locked ==> TxnOf(world, me) == Locking(TxnOf(old(world), me), key, world.tables)
      ensures locked ==> LocksOnly(TxnOf(old(world), me), TxnOf(world, me))
      ensures locked && Present(View(world, me), key) ==> key in TxnOf(world, me).locks
    {
      ghost var t := TxnOf(world, me);
      var reply, seen := Send(me, LockRow(key));
      locked := reply == Done;
      LockingKeeps(t, key, world.tables);
    }

    method Commit(me: Worker)
      requires Valid()
      modifies this
      ensures Valid() && log == old(log) + [Event(me, Store.Commit)]
      ensures world == Apply(codec, old(world), Event(me, Store.Commit))
    {
      var txn := TxnOf(world, me);
      world := World(Overlay(world.tables, txn.pending), world.open - {me}, world.journal + txn.facts);
      Logged(Event(me, Store.Commit));
    }

    ghost method Logged(e: Event)
      requires Quiet(start) && world == Apply(codec, Exec(codec, start, log), e)
      modifies this`log
      ensures Valid() && log == old(log) + [e]
    {
      log := log + [e];
      assert log[..|log| - 1] == old(log);
    }

    method SelectLatest(me: Worker) returns (latest: Option<AuditRow>)
      requires Valid()
      modifies this
      ensures Valid() && log == old(log) + [Event(me, Audit(AuditSteps.ReadLatest))]
      ensures world == Apply(codec, old(world), Event(me, Audit(AuditSteps.ReadLatest)))
      ensures latest == AuditSteps.Latest(View(old(world), me).audit)
    {
      latest := FindLatest(View(world, me).audit);
      world := world.(open := world.open[me := TxnOf(world, me).(latest := Some(latest))]);
      Logged(Event(me, Audit(AuditSteps.ReadLatest)));
    }

    /** The total is good for a later insert, and remembered for it, if `me` owns the mandate row. */
    method SelectReserved(me: Worker, mandate: Id) returns (total: int)
      requires Valid()
      modifies this
      ensures Valid() && log == old(log) + [Event(me, Budget(BudgetSteps.ReadReserved(mandate)))]
      ensures world == Apply(codec, old(world), Event(me, Budget(BudgetSteps.ReadReserved(mandate))))
      ensures total == BudgetSteps.ReservedTotal(View(old(world), me).reservations, mandate)
    {
      total := SumReserved(View(world, me).reservations, mandate);
      var txn := TxnOf(world, me);
      if MandateKey(mandate) in txn.locks {
        txn := txn.(quote := Some((mandate, total)));
      }
      world := world.(open := world.open[me := txn]);
      Logged(Event(me, Budget(BudgetSteps.ReadReserved(mandate))));
    }
  }
}
