/** The statements of BudgetRepository. */
module BudgetSteps {
  import opened Outcomes
  import opened Rows
  import opened Transactions

  datatype Action =
    | ReadReserved(mandateId: Id)
    | Reserve(reservationId: Id, transactionId: Id, requestedPaise: int, refused: bool)
    | CommitReservation(reservationId: Id)
    | ReleaseReservation(reservationId: Id)

  predicate Active(s: BudgetState) {
    s == RESERVED || s == COMMITTED || s == SPENT
  }

  function Weight(r: Reservation, mandate: Id): nat {
    if r.mandateId == mandate && Active(r.state) then r.reservedPaise else 0
  }

  function WeightAt(rows: map<Id, Reservation>, id: Id, mandate: Id): nat {
    if id in rows then Weight(rows[id], mandate) else 0
  }

  ghost function SumOver(ids: set<Id>, rows: map<Id, Reservation>, mandate: Id): nat {
    if ids == {} then 0
    else var id :| id in ids; WeightAt(rows, id, mandate) + SumOver(ids - {id}, rows, mandate)
  }

  /** SELECT coalesce(sum(reserved_paise), 0) over the active reservations of a mandate. */
  ghost function ReservedTotal(rows: map<Id, Reservation>, mandate: Id): nat {
    SumOver(rows.Keys, rows, mandate)
  }

  function Put(txn: Txn, id: Id, row: Reservation): Txn {
    txn.(pending := txn.pending.(reservations := txn.pending.reservations[id := row]))
  }

  /** An UPDATE of the state column of a visible row. */
  function SetState(view: Tables, txn: Txn, id: Id, to: BudgetState): Txn
    requires id in view.reservations
  {
    Put(txn, id, view.reservations[id].(state := to)).(locks := txn.locks + {ReservationKey(id)})
  }

  function WriteEffect(view: Tables, txn: Txn, held: set<Key>, a: Action): Effect
    requires !a.ReadReserved?
  {
    match a
    case Reserve(id, tx, requested, refused) =>
      if requested <= 0 || txn.quote.None? || txn.quote.value.0 !in view.mandates
         || requested > view.mandates[txn.quote.value.0] - txn.quote.value.1 then Raised(txn)
      else
        var row := Reservation(txn.quote.value.0, tx, requested, requested, RESERVED);
        Insert(view, held, ReservationKey(id), refused, Put(txn, id, row).(quote := None))
    case CommitReservation(id) =>
      if ReservationKey(id) in held then Blocked
      else if id !in view.reservations then Raised(txn)
      else if view.reservations[id].state != RESERVED then Raised(txn)
      else Next(SetState(view, txn, id, COMMITTED))
    case ReleaseReservation(id) =>
      if ReservationKey(id) in held then Blocked
      else if id !in view.reservations then Raised(txn)
      else if view.reservations[id].state == RELEASED then Next(txn)
      else if view.reservations[id].state != RESERVED && view.reservations[id].state != EXPIRED then Raised(txn)
      else Next(SetState(view, txn, id, RELEASED))
  }

  ghost function Effects(view: Tables, txn: Txn, held: set<Key>, a: Action): Effect {
    match a
    case ReadReserved(m) =>
      // Only under the mandate's lock is the total good for a later insert.
      if MandateKey(m) !in txn.locks then Next(txn)
      else Next(txn.(quote := Some((m, ReservedTotal(view.reservations, m)))))
    case _ => WriteEffect(view, txn, held, a)
  }

  lemma PutIsFair(txn: Txn, held: set<Key>, id: Id, row: Reservation)
    requires ReservationKey(id) !in held
    ensures Fair(txn, held, Next(Put(txn, id, row).(locks := txn.locks + {ReservationKey(id)})))
  {
  }

  lemma EffectsFair(view: Tables, txn: Txn, held: set<Key>, a: Action)
    ensures Fair(txn, held, Effects(view, txn, held, a))
  {
    match a
    case ReadReserved(_) =>
    case Reserve(id, tx, requested, refused) =>
      if ReservationKey(id) !in held && txn.quote.Some? && requested > 0 {
        PutIsFair(txn, held, id, Reservation(txn.quote.value.0, tx, requested, requested, RESERVED));
      }
    case CommitReservation(id) =>
      if ReservationKey(id) !in held && id in view.reservations {
        PutIsFair(txn, held, id, view.reservations[id].(state := COMMITTED));
      }
    case ReleaseReservation(id) =>
      if ReservationKey(id) !in held && id in view.reservations {
        PutIsFair(txn, held, id, view.reservations[id].(state := RELEASED));
      }
  }

  /** What a reservation does to the transaction, if it is let through. */
  lemma ReserveAdds(view: Tables, txn: Txn, held: set<Key>, id: Id, tx: Id, requested: int, refused: bool)
    requires requested > 0 && txn.quote.Some?
    ensures var r := WriteEffect(view, txn, held, Reserve(id, tx, requested, refused));
            var row := Reservation(txn.quote.value.0, tx, requested, requested, RESERVED);
            r.Next? && r.txn.quote.None? ==>
              && id !in view.reservations
              && r.txn == Put(txn, id, row).(quote := None, locks := txn.locks + {ReservationKey(id)})
    ensures var r := WriteEffect(view, txn, held, Reserve(id, tx, requested, refused));
            txn.quote.value.0 in view.mandates && requested <= view.mandates[txn.quote.value.0] - txn.quote.value.1 ==>
              r.Next? ==> r.txn.quote.None?
  {
  }

  /** What a statement on reservations may change in its transaction. */
  ghost predicate Framed(txn: Txn, r: Effect) {
    r.Next? ==>
      && r.txn == txn.(pending := txn.pending.(reservations := r.txn.pending.reservations),
                       locks := r.txn.locks, quote := r.txn.quote, raised := r.txn.raised)
      && LocksNoMandate(txn, r.txn)
  }

  lemma PutIsFramed(txn: Txn, id: Id, row: Reservation, quote: Option<(Id, int)>)
    ensures Framed(txn, Next(Put(txn, id, row).(quote := quote, locks := txn.locks + {ReservationKey(id)})))
  {
  }

  /** Nothing but the reservation rows and the remembered total changes. */
  lemma EffectsFrame(view: Tables, txn: Txn, held: set<Key>, a: Action)
    ensures Framed(txn, Effects(view, txn, held, a))
  {
    match a
    case ReadReserved(_) =>
    case Reserve(id, tx, requested, refused) =>
      if txn.quote.Some? && requested > 0 {
        PutIsFramed(txn, id, Reservation(txn.quote.value.0, tx, requested, requested, RESERVED), None);
      }
    case CommitReservation(id) =>
      if id in view.reservations {
        PutIsFramed(txn, id, view.reservations[id].(state := COMMITTED), txn.quote);
      }
    case ReleaseReservation(id) =>
      if id in view.reservations {
        PutIsFramed(txn, id, view.reservations[id].(state := RELEASED), txn.quote);
      }
  }
}
