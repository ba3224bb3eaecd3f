/** Sums of reservation weights. */
module ReservedTotals {
  import opened Rows
  import opened BudgetSteps

  lemma {:induction false} SumTakes(ids: set<Id>, rows: map<Id, Reservation>, mandate: Id, id: Id)
    requires id in ids
    ensures SumOver(ids, rows, mandate) == WeightAt(rows, id, mandate) + SumOver(ids - {id}, rows, mandate)
  {
    var first :| first in ids &&
      SumOver(ids, rows, mandate) == WeightAt(rows, first, mandate) + SumOver(ids - {first}, rows, mandate);
    if first != id {
      SumTakes(ids - {first}, rows, mandate, id);
      SumTakes(ids - {id}, rows, mandate, first);
      assert ids - {first} - {id} == ids - {id} - {first};
    }
  }

  lemma {:induction false} SumMonotone(ids: set<Id>, a: map<Id, Reservation>, b: map<Id, Reservation>, mandate: Id)
    requires forall id <- ids :: WeightAt(a, id, mandate) <= WeightAt(b, id, mandate)
    ensures SumOver(ids, a, mandate) <= SumOver(ids, b, mandate)
  {
    if ids != {} {
      var id :| id in ids;
      SumTakes(ids, a, mandate, id);
      SumTakes(ids, b, mandate, id);
      SumMonotone(ids - {id}, a, b, mandate);
    }
  }

  /** Ids outside the table weigh nothing. */
  lemma {:induction false} SumOutside(ids: set<Id>, rows: map<Id, Reservation>, mandate: Id)
    requires rows.Keys <= ids
    ensures SumOver(ids, rows, mandate) == ReservedTotal(rows, mandate)
  {
    if id :| id in ids && id !in rows {
      SumTakes(ids, rows, mandate, id);
      SumOutside(ids - {id}, rows, mandate);
    } else {
      assert ids == rows.Keys;
    }
  }

  /** A table that weighs no more row by row totals no more. */
  lemma TotalMonotone(a: map<Id, Reservation>, b: map<Id, Reservation>, mandate: Id)
    requires forall id :: WeightAt(a, id, mandate) <= WeightAt(b, id, mandate)
    ensures ReservedTotal(a, mandate) <= ReservedTotal(b, mandate)
  {
    var ids := a.Keys + b.Keys;
    SumMonotone(ids, a, b, mandate);
    SumOutside(ids, a, mandate);
    SumOutside(ids, b, mandate);
  }

  lemma NothingReserved(mandate: Id)
    ensures ReservedTotal(map[], mandate) == 0
  {
  }

  /** Writing a row changes the total by its weight, less that of the row it replaces. */
  lemma TotalAfterWrite(rows: map<Id, Reservation>, id: Id, row: Reservation, mandate: Id)
    ensures ReservedTotal(rows[id := row], mandate) ==
            ReservedTotal(rows, mandate) + Weight(row, mandate) - WeightAt(rows, id, mandate)
  {
    var after := rows[id := row];
    var rest := rows.Keys - {id};
    SumTakes(after.Keys, after, mandate, id);
    assert after.Keys - {id} == rest;
    SumMonotone(rest, rows, after, mandate);
    SumMonotone(rest, after, rows, mandate);
    if id in rows {
      SumTakes(rows.Keys, rows, mandate, id);
    } else {
      assert rest == rows.Keys;
    }
  }

  /** A new RESERVED, COMMITTED or SPENT row adds its whole amount to the total of its mandate, any other nothing. */
  lemma TotalAdds(rows: map<Id, Reservation>, id: Id, row: Reservation, mandate: Id)
    requires id !in rows
    ensures ReservedTotal(rows[id := row], mandate) == ReservedTotal(rows, mandate) +
            if row.mandateId == mandate && row.state in {RESERVED, COMMITTED, SPENT} then row.reservedPaise else 0
  {
    TotalAfterWrite(rows, id, row, mandate);
  }
}

/**
  Budget isolation over every run: any interleaving, over any number of mandates, of transactions that
  lock mandates, total, reserve, commit and release reservations, commit and abort.
  CommitReservation and ReleaseReservation each read, lock and update their row in one step.
 */
module BudgetIsolation {
  import opened Outcomes
  import opened Rows
  import opened Transactions
  import opened BudgetSteps
  import opened ReservedTotals
  import opened Store
  import AuditSteps

  /** No reservation of the mandate weighs more in `top` than it does in `base`. */
  ghost predicate NoHeavier(base: map<Id, Reservation>, top: map<Id, Reservation>, mandate: Id) {
    forall id <- top :: Weight(top[id], mandate) <= WeightAt(base, id, mandate)
  }

  ghost predicate WithinBudget(mandates: map<Id, int>, rows: map<Id, Reservation>, mandate: Id) {
    mandate in mandates ==> ReservedTotal(rows, mandate) <= mandates[mandate]
  }

  /**
    A transaction that owns the mandate row keeps its view within budget, and the total it remembers is
    an upper bound of its view; one that does not can only make reservations of the mandate lighter.
   */
  ghost predicate Sound(mandates: map<Id, int>, durable: map<Id, Reservation>, pending: map<Id, Reservation>,
                        locked: bool, quote: Option<(Id, int)>, mandate: Id) {
    && (locked ==> WithinBudget(mandates, durable + pending, mandate))
    && (!locked ==> NoHeavier(durable, pending, mandate))
    && (quote.Some? && quote.value.0 == mandate ==>
        locked && ReservedTotal(durable + pending, mandate) <= quote.value.1)
  }

  ghost predicate TxnSound(tables: Tables, txn: Txn, mandate: Id) {
    && Sound(tables.mandates, tables.reservations, txn.pending.reservations, MandateKey(mandate) in txn.locks,
             txn.quote, mandate)
    && (txn.quote.Some? ==> MandateKey(txn.quote.value.0) in txn.locks)
  }

  ghost predicate BudgetInv(w: World, mandate: Id) {
    && WithinBudget(w.tables.mandates, w.tables.reservations, mandate)
    && (forall x <- w.open :: TxnSound(w.tables, w.open[x], mandate))
  }

  /** Overlaying lighter rows keeps the table within budget. */
  lemma LighterStaysWithin(mandates: map<Id, int>, base: map<Id, Reservation>, top: map<Id, Reservation>, mandate: Id)
    requires NoHeavier(base, top, mandate) && WithinBudget(mandates, base, mandate)
    ensures WithinBudget(mandates, base + top, mandate)
  {
    TotalMonotone(base + top, base, mandate);
  }

  /** A reservation that fits what is left of the remembered total keeps the view within budget. */
  lemma ReserveIsSound(mandates: map<Id, int>, durable: map<Id, Reservation>, pending: map<Id, Reservation>,
                       locked: bool, quote: Option<(Id, int)>, id: Id, row: Reservation, mandate: Id)
    requires Sound(mandates, durable, pending, locked, quote, mandate) && id !in durable + pending
    requires quote.Some? && row.mandateId == quote.value.0 && row.mandateId in mandates
    requires row.reservedPaise <= mandates[row.mandateId] - quote.value.1
    ensures Sound(mandates, durable, pending[id := row], locked, None, mandate)
  {
    assert durable + pending[id := row] == (durable + pending)[id := row];
    TotalAdds(durable + pending, id, row, mandate);
  }

  /** Replacing a visible reservation by one that weighs no more keeps the transaction sound. */
  lemma LightenIsSound(mandates: map<Id, int>, durable: map<Id, Reservation>, pending: map<Id, Reservation>,
                       locked: bool, quote: Option<(Id, int)>, id: Id, row: Reservation, mandate: Id)
    requires Sound(mandates, durable, pending, locked, quote, mandate) && id in durable + pending
    requires Weight(row, mandate) <= Weight((durable + pending)[id], mandate)
    ensures Sound(mandates, durable, pending[id := row], locked, quote, mandate)
  {
    assert durable + pending[id := row] == (durable + pending)[id := row];
    TotalMonotone((durable + pending)[id := row], durable + pending, mandate);
  }

  lemma LockIsSound(tables: Tables, txn: Txn, key: Key, mandate: Id)
    requires TxnSound(tables, txn, mandate) && WithinBudget(tables.mandates, tables.reservations, mandate)
    ensures TxnSound(tables, txn.(locks := txn.locks + {key}), mandate)
  {
    if MandateKey(mandate) !in txn.locks {
      LighterStaysWithin(tables.mandates, tables.reservations, txn.pending.reservations, mandate);
    }
  }

  lemma SetStateIsSound(tables: Tables, txn: Txn, id: Id, to: BudgetState, mandate: Id)
    requires TxnSound(tables, txn, mandate) && id in Overlay(tables, txn.pending).reservations
    requires Active(to) ==> Active(Overlay(tables, txn.pending).reservations[id].state)
    ensures TxnSound(tables, SetState(Overlay(tables, txn.pending), txn, id, to), mandate)
  {
    var row := Overlay(tables, txn.pending).reservations[id].(state := to);
    LightenIsSound(tables.mandates, tables.reservations, txn.pending.reservations, MandateKey(mandate) in txn.locks,
                   txn.quote, id, row, mandate);
  }

  lemma BookIsSound(tables: Tables, txn: Txn, id: Id, row: Reservation, mandate: Id)
    requires TxnSound(tables, txn, mandate) && id !in tables.reservations + txn.pending.reservations
    requires txn.quote.Some? && row.mandateId == txn.quote.value.0 && row.mandateId in tables.mandates
    requires row.reservedPaise <= tables.mandates[row.mandateId] - txn.quote.value.1
    ensures var after := Put(txn, id, row).(quote := None);
            TxnSound(tables, after.(locks := after.locks + {ReservationKey(id)}), mandate)
  {
    ReserveIsSound(tables.mandates, tables.reservations, txn.pending.reservations, MandateKey(mandate) in txn.locks,
                   txn.quote, id, row, mandate);
  }

  lemma ReserveStepIsSound(tables: Tables, txn: Txn, held: set<Key>, a: BudgetSteps.Action, mandate: Id)
    requires TxnSound(tables, txn, mandate) && txn.pending.mandates == map[] && a.Reserve?
    ensures var r := BudgetSteps.Effects(Overlay(tables, txn.pending), txn, held, a);
            r.Next? ==> TxnSound(tables, r.txn, mandate)
  {
    var view := Overlay(tables, txn.pending);
    assert view.mandates == tables.mandates;
    if a.requestedPaise > 0 && txn.quote.Some? && txn.quote.value.0 in tables.mandates
      && a.reservationId !in view.reservations
       && a.requestedPaise <= tables.mandates[txn.quote.value.0] - txn.quote.value.1 {
      var row := Reservation(txn.quote.value.0, a.transactionId, a.requestedPaise, a.requestedPaise, RESERVED);
      BookIsSound(tables, txn, a.reservationId, row, mandate);
    }
  }

  lemma ResolveStepIsSound(tables: Tables, txn: Txn, held: set<Key>, a: BudgetSteps.Action, mandate: Id)
    requires TxnSound(tables, txn, mandate) && (a.CommitReservation? || a.ReleaseReservation?)
    ensures var r := BudgetSteps.Effects(Overlay(tables, txn.pending), txn, held, a);
            r.Next? ==> TxnSound(tables, r.txn, mandate)
  {
    var rows := Overlay(tables, txn.pending).reservations;
    if a.reservationId in rows && (a.CommitReservation? ==> rows[a.reservationId].state == RESERVED) {
      SetStateIsSound(tables, txn, a.reservationId, if a.CommitReservation? then COMMITTED else RELEASED, mandate);
    }
  }

  lemma EffectsSound(c: AuditSteps.Codec, tables: Tables, txn: Txn, held: set<Key>, a: Store.Action, mandate: Id)
    requires TxnSound(tables, txn, mandate) && txn.pending.mandates == map[]
    requires WithinBudget(tables.mandates, tables.reservations, mandate)
    requires a != Commit
    ensures var r := Store.Effects(c, tables, txn, held, a); r.Next? ==> TxnSound(tables, r.txn, mandate)
  {
    match a
    case LockRow(key) => LockIsSound(tables, txn, key, mandate);
    case Budget(b) =>
      if b.Reserve? {
        ReserveStepIsSound(tables, txn, held, b, mandate);
      } else if !b.ReadReserved? {
        ResolveStepIsSound(tables, txn, held, b, mandate);
      }
    case _ => Store.EffectsFrame(c, tables, txn, held, a);
  }

  lemma OthersStaySound(mandates: map<Id, int>, durable: map<Id, Reservation>, p: map<Id, Reservation>,
                        q: map<Id, Reservation>, locked: bool, quote: Option<(Id, int)>, mandate: Id)
    requires Sound(mandates, durable, q, locked, quote, mandate)
    requires p.Keys !! q.Keys && (locked ==> NoHeavier(durable, p, mandate))
    ensures Sound(mandates, durable + p, q, locked, quote, mandate)
  {
    if locked {
      TotalMonotone(durable + p + q, durable + q, mandate);
    }
  }

  lemma CommitKeepsOthers(tables: Tables, mine: Txn, other: Txn, mandate: Id)
    requires TxnSound(tables, mine, mandate) && TxnSound(tables, other, mandate)
    requires OwnsItsRows(mine) && OwnsItsRows(other) && mine.locks !! other.locks
    ensures TxnSound(Overlay(tables, mine.pending), other, mandate)
  {
    forall id <- other.pending.reservations ensures id !in mine.pending.reservations {
      assert ReservationKey(id) in other.locks;
    }
    assert tables.mandates + mine.pending.mandates == tables.mandates;
    OthersStaySound(tables.mandates, tables.reservations, mine.pending.reservations, other.pending.reservations,
                    MandateKey(mandate) in other.locks, other.quote, mandate);
  }

  lemma CommitIsSound(tables: Tables, txn: Txn, mandate: Id)
    requires TxnSound(tables, txn, mandate) && txn.pending.mandates == map[]
    requires WithinBudget(tables.mandates, tables.reservations, mandate)
    ensures var after := Overlay(tables, txn.pending); WithinBudget(after.mandates, after.reservations, mandate)
  {
    assert tables.mandates + txn.pending.mandates == tables.mandates;
    if MandateKey(mandate) !in txn.locks {
      LighterStaysWithin(tables.mandates, tables.reservations, txn.pending.reservations, mandate);
    }
  }

  lemma BeginIsSound(tables: Tables, mandate: Id)
    requires WithinBudget(tables.mandates, tables.reservations, mandate)
    ensures TxnSound(tables, BEGIN, mandate)
  {
    assert tables.reservations + map[] == tables.reservations;
  }

  lemma CommitBudget(c: AuditSteps.Codec, w: World, e: Event, mandate: Id)
    requires Isolated(w) && BudgetInv(w, mandate) && e.action == Commit
    ensures BudgetInv(Apply(c, w, e), mandate)
  {
    var txn := TxnOf(w, e.worker);
    BeginIsSound(w.tables, mandate);
    CommitIsSound(w.tables, txn, mandate);
    forall y | y in w.open && y != e.worker ensures TxnSound(Apply(c, w, e).tables, w.open[y], mandate) {
      CommitKeepsOthers(w.tables, txn, w.open[y], mandate);
    }
  }

  lemma ApplyBudget(c: AuditSteps.Codec, w: World, e: Event, mandate: Id)
    requires Isolated(w) && BudgetInv(w, mandate)
    ensures BudgetInv(Apply(c, w, e), mandate)
  {
    if e.action == Commit {
      CommitBudget(c, w, e, mandate);
    } else {
      OneTransactionSteps(c, w, e);
      BeginIsSound(w.tables, mandate);
      EffectsSound(c, w.tables, TxnOf(w, e.worker), HeldByOthers(w, e.worker), e.action, mandate);
    }
  }

  /** No run takes a mandate over its daily budget, durably or in the view of the worker holding its lock. */
  lemma {:induction false} BudgetOverRuns(c: AuditSteps.Codec, w: World, schedule: seq<Event>, mandate: Id)
    requires Quiet(w) && WithinBudget(w.tables.mandates, w.tables.reservations, mandate)
    ensures BudgetInv(Exec(c, w, schedule), mandate)
  {
    if schedule != [] {
      var before := schedule[..|schedule| - 1];
      BudgetOverRuns(c, w, before, mandate);
      ExecIsolated(c, w, before);
      ApplyBudget(c, Exec(c, w, before), schedule[|schedule| - 1], mandate);
    }
  }

  /** The same, said of what a reader and a lock holder see. */
  lemma NeverOverBudget(c: AuditSteps.Codec, w: World, schedule: seq<Event>, mandate: Id, me: Worker)
    requires Quiet(w) && WithinBudget(w.tables.mandates, w.tables.reservations, mandate)
    requires mandate in w.tables.mandates
    ensures var w' := Exec(c, w, schedule);
            && w'.tables.mandates == w.tables.mandates
            && ReservedTotal(w'.tables.reservations, mandate) <= w.tables.mandates[mandate]
            && (MandateKey(mandate) in TxnOf(w', me).locks ==>
                  ReservedTotal(View(w', me).reservations, mandate) <= w.tables.mandates[mandate])
  {
    BudgetOverRuns(c, w, schedule, mandate);
    MandatesAreFixed(c, w, schedule);
  }
}
