/** TransactionRepository over the shared database. */
module TransactionRepositories {
  import opened Outcomes
  import opened Rows
  import opened Transactions
  import opened TransactionStates
  import opened TransactionSteps
  import opened Store
  import opened Databases
  import opened Failures

  class TransactionRepository {
    const db: Database
    const me: Worker
    const upper: string -> string

    constructor (db: Database, me: Worker, upper: string -> string)
      ensures this.db == db && this.me == me && this.upper == upper
    {
      this.db := db;
      this.me := me;
      this.upper := upper;
    }

    method Send(b: TransactionSteps.Action) returns (reply: Reply, ghost seen: World)
      requires db.Valid()
      modifies db
      ensures db.Valid() && old(db.log) <= db.log && db.Reached(old(db.log), seen)
      ensures StandsFor(seen, old(db.world), me)
      ensures db.Met(seen, me, TransactionSteps.Effects(View(seen, me), TxnOf(seen, me), HeldByOthers(seen, me), b),
                     reply)
    {
      reply, seen := db.Send(me, Pay(b));
      PayEffects(db.codec, seen.tables, TxnOf(seen, me), HeldByOthers(seen, me), b);
    }

    method InsertRow(id: Id, row: TransactionRow) returns (reply: Reply)
      requires db.Valid()
      modifies db
      ensures db.Valid() && old(db.log) <= db.log
      ensures reply == Done ==> Created(TxnOf(old(db.world), me), TxnOf(db.world, me), db.world.tables, id, row)
      ensures reply != Done ==> me !in db.world.open
    {
      var refused: bool := *;
      ghost var seen: World;
      reply, seen := Send(Insert(id, row, refused));
      InsertAdds(View(seen, me), TxnOf(seen, me), HeldByOthers(seen, me), id, row, refused);
    }

    /** create_transaction finds its key taken: the existing transaction, if it is for the same purchase. */
    method ReuseRow(id: Id, purchase: Purchase) returns (r: Result<(Id, TransactionRow), Failure>)
      requires db.Valid() && id in View(db.world, me).transactions
      modifies db
      ensures db.Valid() && old(db.log) <= db.log && db.world.tables == old(db.world).tables
      ensures var row, t := View(old(db.world), me).transactions[id], TxnOf(old(db.world), me);
              row.purchase == purchase ==>
                r == Ok((id, row)) && TxnOf(db.world, me) == t.(facts := t.facts + [Answered(row.key, id, purchase)])
      ensures var row, t := View(old(db.world), me).transactions[id], TxnOf(old(db.world), me);
              row.purchase != purchase ==> r == Err(ValueError) && TxnOf(db.world, me) == t.(raised := true)
    {
      var row := View(db.world, me).transactions[id];
      if row.purchase != purchase {
        db.Fail(me);
        return Err(ValueError);
      }
      ghost var before := db.world;
      var reply := db.Execute(me, Pay(Reuse(id, purchase)));
      PayEffects(db.codec, before.tables, TxnOf(before, me), HeldByOthers(before, me), Reuse(id, purchase));
      return Ok((id, row));
    }

    /**
      create_transaction: a known key answers with its transaction if the purchase is the same, and raises if
      it is not; otherwise the row is inserted. Other workers may take the key between lookup and insert.
     */
    method CreateTransaction(id: Id, row: TransactionRow) returns (r: Result<(Id, TransactionRow), Failure>)
      requires db.Valid()
      modifies db
      ensures db.Valid() && old(db.log) <= db.log
      ensures r.Ok? ==>
                var t, t' := TxnOf(old(db.world), me), TxnOf(db.world, me);
                || (r.value == (id, row) && Created(t, t', db.world.tables, id, row))
                || Reused(t, t', db.world.tables, row, r.value)
      ensures r == Err(ValueError) ==>
                Mismatched(Overlay(db.world.tables, TxnOf(old(db.world), me).pending).transactions, row)
      ensures r.Err? && r.error != ValueError ==>
                me !in db.world.open && Unclaimed(db, old(db.log), old(db.world), me, row.key)
      ensures r.Err? ==> Spoiled(old(db.world), db.world, me)
    {
      db.Yield(me);
      ghost var looked, log := db.world, db.log;
      assert looked == Exec(db.codec, db.start, log);
      var rows := View(db.world, me).transactions;
      if x :| x in rows && rows[x].key == row.key {
        r := ReuseRow(x, row.purchase);
        return;
      }
      var reply := InsertRow(id, row);
      assert db.Reached(old(db.log), looked) && !KeyTaken(View(looked, me).transactions, row.key);
      match reply {
        case Done => r := Ok((id, row));
        case Waiting => r := Err(DatabaseError);
        case RolledBack => r := Err(IntegrityError);
      }
    }

    /** What the three updates share: lock the row, change it, flush, and raise if the change is refused. */
    method Update(b: TransactionSteps.Action) returns (r: Result<TransactionRow, Failure>)
      requires db.Valid() && !b.Insert? && !b.Reuse?
      modifies db
      ensures db.Valid() && old(db.log) <= db.log
      ensures Updated(old(db.world), db.world, me, b, r)
      ensures r == Err(DatabaseError) ==> Waited(db, old(db.log), me, b.transactionId)
    {
      ghost var start := db.log;
      var id := b.transactionId;
      var locked := LockTransaction(id);
      if !locked {
        return Err(DatabaseError);
      }
      var rows := View(db.world, me).transactions;
      if id !in rows {
        db.Fail(me);
        return Err(ValueError);
      }
      var (row, refusal) := Change(rows[id], b);
      ghost var locking := db.log;
      var reply := Flush(b);
      if reply != Done {
        db.ContendedSince(start, locking, me, IdempotencyKey(rows[id].key));
        return Err(DatabaseError);
      }
      r := if refusal.None? then Ok(row) else Err(Raises(refusal.value));
    }

    /** lock_transaction_for_update: nothing but the locks of the transaction changes. */
    method LockTransaction(id: Id) returns (locked: bool)
      requires db.Valid()
      modifies db
      ensures db.Valid() && old(db.log) <= db.log
      ensures !locked ==> me !in db.world.open && db.Contended(old(db.log), me, TransactionKey(id))
      ensures locked ==>
                LocksOnly(TxnOf(old(db.world), me), TxnOf(db.world, me))
      ensures locked && id in View(db.world, me).transactions ==> TransactionKey(id) in TxnOf(db.world, me).locks
    {
      locked := db.LockForUpdate(me, TransactionKey(id));
      TransactionIsPresent(View(db.world, me), id);
    }

    /** The UPDATE of a row that is locked, and so still the one that was read. */
    method Flush(b: TransactionSteps.Action) returns (reply: Reply)
      requires db.Valid() && !b.Insert? && !b.Reuse?
      requires TransactionKey(b.transactionId) in TxnOf(db.world, me).locks
               && b.transactionId in View(db.world, me).transactions
      modifies db
      ensures db.Valid() && old(db.log) <= db.log
      ensures reply != Done ==>
                && me !in db.world.open
                && db.Contended(old(db.log), me,
                                IdempotencyKey(View(old(db.world), me).transactions[b.transactionId].key))
      ensures var id, rows := b.transactionId, Overlay(db.world.tables, TxnOf(old(db.world), me).pending).transactions;
              id in rows && rows[id] == View(old(db.world), me).transactions[id]
      ensures reply == Done ==>
                Changed(TxnOf(old(db.world), me), TxnOf(db.world, me),
                        View(old(db.world), me).transactions[b.transactionId], b)
    {
      ghost var before := db.world;
      ghost var seen: World;
      reply, seen := Send(b);
      assert SameRow(before.tables, seen.tables, TransactionKey(b.transactionId));
    }

    method TransitionTransactionState(id: Id, target: State) returns (r: Result<TransactionRow, Failure>)
      requires db.Valid()
      modifies db
      ensures db.Valid() && old(db.log) <= db.log
      ensures Updated(old(db.world), db.world, me, Move(id, target), r)
      ensures r == Err(DatabaseError) ==> Waited(db, old(db.log), me, id)
      ensures r != Err(DatabaseError) ==>
                Transitioned(Overlay(db.world.tables, TxnOf(old(db.world), me).pending).transactions,
                             TxnOf(old(db.world), me), TxnOf(db.world, me), id, target, r)
    {
      r := Update(Move(id, target));
      if r != Err(DatabaseError) {
        UpdateTransitions(old(db.world), db.world, me, id, target, r);
      }
    }

    method MarkProviderDispatchStarted(id: Id, payment: Option<string>) returns (r: Result<TransactionRow, Failure>)
      requires db.Valid()
      modifies db
      ensures db.Valid() && old(db.log) <= db.log
      ensures Updated(old(db.world), db.world, me, Dispatch(id, payment), r)
      ensures r == Err(DatabaseError) ==> Waited(db, old(db.log), me, id)
      ensures r != Err(DatabaseError) ==>
                Dispatched(Overlay(db.world.tables, TxnOf(old(db.world), me).pending).transactions,
                           TxnOf(old(db.world), me), TxnOf(db.world, me), id, payment, r)
    {
      r := Update(Dispatch(id, payment));
      if r != Err(DatabaseError) {
        UpdateDispatches(old(db.world), db.world, me, id, payment, r);
      }
    }

    /** The report is noted on the row seen under the lock, then the transition is tried. */
    method RecordProviderOutcome(id: Id, status: string, payment: Option<string>)
      returns (r: Result<TransactionRow, Failure>)
      requires db.Valid()
      modifies db
      ensures db.Valid() && old(db.log) <= db.log
      ensures Updated(old(db.world), db.world, me, Report(id, status, payment, upper(status)), r)
      ensures r == Err(DatabaseError) ==> Waited(db, old(db.log), me, id)
      ensures r != Err(DatabaseError) ==>
                Recorded(Overlay(db.world.tables, TxnOf(old(db.world), me).pending).transactions,
                         TxnOf(db.world, me), id, status, payment, upper(status), r)
    {
      r := Update(Report(id, status, payment, upper(status)));
      if r != Err(DatabaseError) {
        UpdateRecords(old(db.world), db.world, me, id, status, payment, upper(status), r);
      }
    }
  }

  lemma TransactionIsPresent(view: Tables, id: Id)
    ensures Present(view, TransactionKey(id)) <==> id in view.transactions
  {
  }

  /** The row that a transaction now sees, and will commit. */
  predicate Flushed(t: Txn, id: Id, row: TransactionRow) {
    id in t.pending.transactions && t.pending.transactions[id] == row
  }

  /** A legal move of the row seen is taken and noted; anything else raises and leaves the row. */
  predicate Transitioned(rows: map<Id, TransactionRow>, t: Txn, t': Txn, id: Id, target: State,
                         r: Result<TransactionRow, Failure>)
  {
    && (r.Ok? <==> id in rows && CanMove(rows[id].state, target))
    && (r.Ok? ==> r.value == rows[id].(state := target) && t'.facts == t.facts + [Entered(id, target)])
    && (r == Err(ValueError) <==> id !in rows || rows[id].state.Unlisted? || target.Unlisted?)
    && (r.Err? ==> r.error in {ValueError, TransactionStateError})
    && (id in rows ==> Flushed(t', id, if r.Ok? then r.value else rows[id]))
  }

  /** An authorized transaction moves to EXECUTING; the provider's fields are set only if it does. */
  predicate Dispatched(rows: map<Id, TransactionRow>, t: Txn, t': Txn, id: Id, payment: Option<string>,
                       r: Result<TransactionRow, Failure>)
  {
    && (r.Ok? <==> id in rows && rows[id].state == Authorized)
    && (r.Ok? ==> OnlyNoted(rows[id].(state := Executing), r.value, "DISPATCHED", payment)
                  && t'.facts == t.facts + [Entered(id, Executing)])
    && (id in rows ==> Flushed(t', id, if r.Ok? then r.value else rows[id]))
  }

  /**
    What was reported is noted in any case. A success or a failure moves the transaction, or raises if it
    cannot go there; any other text leaves its state. On an executing transaction nothing is refused.
   */
  predicate Recorded(rows: map<Id, TransactionRow>, t': Txn, id: Id, status: string, payment: Option<string>,
                     upper: string, r: Result<TransactionRow, Failure>)
  {
    && (r.Ok? <==> id in rows && !Refuses(upper, rows[id].state))
    && (r.Ok? && upper in {"SUCCESS", "CAPTURED", "PAID"} ==> r.value.state == Success)
    && (r.Ok? && upper in {"FAILURE", "FAILED", "DECLINED"} ==> r.value.state == Failure)
    && (r.Ok? && upper !in {"SUCCESS", "CAPTURED", "PAID", "FAILURE", "FAILED", "DECLINED"} ==>
          r.value.state == rows[id].state)
    && (id in rows && rows[id].state == Executing ==> r.Ok?)
    && (id in rows ==>
          var state := if r.Ok? then r.value.state else rows[id].state;
          && id in t'.pending.transactions && (r.Ok? ==> t'.pending.transactions[id] == r.value)
          && OnlyNoted(rows[id].(state := state), t'.pending.transactions[id], status, payment))
  }

  /** The row an update returns or leaves behind is the changed one. */
  lemma UpdateFlushes(before: World, after: World, me: Worker, b: TransactionSteps.Action,
                      r: Result<TransactionRow, Failure>)
    requires !b.Insert? && !b.Reuse? && Updated(before, after, me, b, r) && r != Err(DatabaseError)
    ensures var rows := Overlay(after.tables, TxnOf(before, me).pending).transactions;
            if b.transactionId !in rows then r == Err(ValueError)
            else
              var (row, refusal) := Change(rows[b.transactionId], b);
              && Flushed(TxnOf(after, me), b.transactionId, row)
              && TxnOf(after, me).facts == TxnOf(before, me).facts + Moved(rows[b.transactionId], row, b.transactionId)
              && r == if refusal.None? then Ok(row) else Err(Raises(refusal.value))
  {
  }

  lemma UpdateTransitions(before: World, after: World, me: Worker, id: Id, target: State,
                          r: Result<TransactionRow, Failure>)
    requires Updated(before, after, me, Move(id, target), r) && r != Err(DatabaseError)
    ensures Transitioned(Overlay(after.tables, TxnOf(before, me).pending).transactions,
                         TxnOf(before, me), TxnOf(after, me), id, target, r)
  {
    UpdateFlushes(before, after, me, Move(id, target), r);
    var rows := Overlay(after.tables, TxnOf(before, me).pending).transactions;
    if id in rows {
      MoveTransitions(rows, TxnOf(before, me), TxnOf(after, me), id, target, r);
    }
  }

  lemma MoveTransitions(rows: map<Id, TransactionRow>, t: Txn, t': Txn, id: Id, target: State,
                        r: Result<TransactionRow, Failure>)
    requires id in rows
    requires var (row, refusal) := MoveRow(rows[id], target);
             && Flushed(t', id, row) && t'.facts == t.facts + Moved(rows[id], row, id)
             && r == if refusal.None? then Ok(row) else Err(Raises(refusal.value))
    ensures Transitioned(rows, t, t', id, target, r)
  {
    EnteredFromIff(rows[id].state, target);
  }

  lemma UpdateDispatches(before: World, after: World, me: Worker, id: Id, payment: Option<string>,
                         r: Result<TransactionRow, Failure>)
    requires Updated(before, after, me, Dispatch(id, payment), r) && r != Err(DatabaseError)
    ensures Dispatched(Overlay(after.tables, TxnOf(before, me).pending).transactions,
                       TxnOf(before, me), TxnOf(after, me), id, payment, r)
  {
    UpdateFlushes(before, after, me, Dispatch(id, payment), r);
    var rows := Overlay(after.tables, TxnOf(before, me).pending).transactions;
    if id in rows {
      DispatchMoves(rows[id], payment);
    }
  }

  lemma ReportIsRecorded(rows: map<Id, TransactionRow>, t': Txn, id: Id, status: string, payment: Option<string>,
                         upper: string, r: Result<TransactionRow, Failure>)
    requires id in rows
    requires var (row, refusal) := ReportRow(rows[id], status, payment, upper);
             Flushed(t', id, row) && r == if refusal.None? then Ok(row) else Err(Raises(refusal.value))
    ensures Recorded(rows, t', id, status, payment, upper, r)
  {
    ReportMoves(rows[id], status, payment, upper);
  }

  lemma UpdateRecords(before: World, after: World, me: Worker, id: Id, status: string, payment: Option<string>,
                      upper: string, r: Result<TransactionRow, Failure>)
    requires Updated(before, after, me, Report(id, status, payment, upper), r) && r != Err(DatabaseError)
    ensures Recorded(Overlay(after.tables, TxnOf(before, me).pending).transactions, TxnOf(after, me), id, status,
                     payment, upper, r)
  {
    UpdateFlushes(before, after, me, Report(id, status, payment, upper), r);
    var rows := Overlay(after.tables, TxnOf(before, me).pending).transactions;
    if id in rows {
      assert Change(rows[id], Report(id, status, payment, upper)) == ReportRow(rows[id], status, payment, upper);
      ReportIsRecorded(rows, TxnOf(after, me), id, status, payment, upper, r);
    }
  }

  /** During the call another transaction owned this transaction's row, or some idempotency key. */
  ghost predicate Waited(db: Database, since: seq<Event>, me: Worker, id: Id)
    reads db
  {
    db.Contended(since, me, TransactionKey(id)) || exists key :: db.Contended(since, me, IdempotencyKey(key))
  }

  function Raises(refusal: Refusal): Failure {
    match refusal
    case IllegalTransition => TransactionStateError
    case UnknownState => ValueError
  }

  /** The row was inserted under an id and a key that neither the database nor the transaction had. */
  ghost predicate Created(t: Txn, t': Txn, tables: Tables, id: Id, row: TransactionRow) {
    && id !in Overlay(tables, t.pending).transactions && !KeyTaken(Overlay(tables, t.pending).transactions, row.key)
    && t' == Put(t, id, row).(locks := t.locks + {IdempotencyKey(row.key), TransactionKey(id)},
                              facts := t.facts + [Answered(row.key, id, row.purchase)])
  }

  /** The answer is a row the worker sees under that key, for the same purchase. */
  ghost predicate Reused(t: Txn, t': Txn, tables: Tables, asked: TransactionRow, answer: (Id, TransactionRow)) {
    var rows := Overlay(tables, t.pending).transactions;
    && answer.0 in rows && rows[answer.0] == answer.1 && answer.1.key == asked.key
       && answer.1.purchase == asked.purchase
    && t' == t.(facts := t.facts + [Answered(asked.key, answer.0, asked.purchase)])
  }

  /** During the call there was a time when `me` saw no transaction under the key. */
  ghost predicate Unclaimed(db: Database, since: seq<Event>, before: World, me: Worker, key: string)
    reads db
  {
    exists seen :: db.Reached(since, seen) && StandsFor(seen, before, me) && !KeyTaken(View(seen, me).transactions, key)
  }

  ghost predicate Mismatched(rows: map<Id, TransactionRow>, asked: TransactionRow) {
    exists id :: id in rows && rows[id].key == asked.key && rows[id].purchase != asked.purchase
  }

  /** What changing the row `before` leaves in the transaction. */
  ghost predicate Changed(t: Txn, t': Txn, before: TransactionRow, b: TransactionSteps.Action)
    requires !b.Insert? && !b.Reuse?
  {
    var (row, refusal) := Change(before, b);
    && t'.pending == t.pending.(transactions := t.pending.transactions[b.transactionId := row])
    && t'.facts == t.facts + Moved(before, row, b.transactionId)
    && t'.raised == (t.raised || refusal.Some?)
  }

  /**
    The call changed the row it saw: it returns the changed row, or raises because there is no such row or
    the change is refused; either way the row that the change produced is what is flushed.
   */
  ghost predicate Updated(before: World, after: World, me: Worker, b: TransactionSteps.Action,
                          r: Result<TransactionRow, Failure>)
    requires !b.Insert? && !b.Reuse?
  {
    var t, t', id := TxnOf(before, me), TxnOf(after, me), b.transactionId;
    var rows := Overlay(after.tables, t.pending).transactions;
    if r == Err(DatabaseError) then me !in after.open
    else if id !in rows then r == Err(ValueError) && Spoiled(before, after, me)
    else
      var (row, refusal) := Change(rows[id], b);
      r == (if refusal.None? then Ok(row) else Err(Raises(refusal.value))) && Changed(t, t', rows[id], b)
  }
}
