/** The statements of TransactionRepository. */
module TransactionSteps {
  import opened Outcomes
  import opened Rows
  import opened Transactions
  import opened TransactionStates

  datatype Action =
    | Insert(transactionId: Id, row: TransactionRow, refused: bool)
    | Reuse(transactionId: Id, purchase: Purchase)  // create_transaction found its key
    | Move(transactionId: Id, target: State)
    | Dispatch(transactionId: Id, payment: Option<string>)
    | Report(transactionId: Id, status: string, payment: Option<string>, upper: string)  // `upper` is status.upper()

  datatype Refusal = IllegalTransition | UnknownState

  /** transition_transaction_state on the locked row. */
  function MoveRow(r: TransactionRow, target: State): (TransactionRow, Option<Refusal>) {
    if r.state.Unlisted? || target.Unlisted? then (r, Some(UnknownState))
    else if !CanMove(r.state, target) then (r, Some(IllegalTransition))
    else (r.(state := target), None)
  }

  function Paid(r: TransactionRow, payment: Option<string>): TransactionRow {
    if payment.Some? then r.(providerPaymentId := payment) else r
  }

  function DispatchRow(r: TransactionRow, payment: Option<string>): (TransactionRow, Option<Refusal>) {
    var (moved, refusal) := MoveRow(r, Executing);
    if refusal.Some? then (moved, refusal)
    else (Paid(moved, payment).(providerStatus := Some("DISPATCHED")), None)
  }

  /** Where an outcome reported by the provider sends the transaction; anything else leaves its state. */
  function Verdict(upper: string): Option<State> {
    if upper in {"SUCCESS", "CAPTURED", "PAID"} then Some(Success)
    else if upper in {"FAILURE", "FAILED", "DECLINED"} then Some(Failure)
    else None
  }

  function Noted(r: TransactionRow, status: string, payment: Option<string>): TransactionRow {
    Paid(r, payment).(providerStatus := Some(status))
  }

  /** The provider's fields are assigned before the transition is tried, also when it is then refused. */
  function ReportRow(r: TransactionRow, status: string, payment: Option<string>, upper: string)
    : (TransactionRow, Option<Refusal>)
  {
    var verdict := Verdict(upper);
    if verdict.None? then (Noted(r, status, payment), None) else MoveRow(Noted(r, status, payment), verdict.value)
  }

  function Change(r: TransactionRow, a: Action): (TransactionRow, Option<Refusal>)
    requires !a.Insert? && !a.Reuse?
  {
    match a
    case Move(_, target) => MoveRow(r, target)
    case Dispatch(_, payment) => DispatchRow(r, payment)
    case Report(_, status, payment, upper) => ReportRow(r, status, payment, upper)
  }

  function Put(txn: Txn, id: Id, row: TransactionRow): Txn {
    txn.(pending := txn.pending.(transactions := txn.pending.transactions[id := row]))
  }

  /** The facts that an accepted change adds. */
  function Moved(before: TransactionRow, after: TransactionRow, id: Id): seq<Fact> {
    if after.state == before.state then [] else [Entered(id, after.state)]
  }

  /** The row's id and its idempotency key are both unique. */
  function InsertEffect(view: Tables, txn: Txn, held: set<Key>, id: Id, row: TransactionRow, refused: bool): Effect {
    if IdempotencyKey(row.key) in held then Blocked
    else if row.purchase.amountPaise < 0 || Present(view, IdempotencyKey(row.key)) then Failed
    else
      var after := Put(txn, id, row);
      Transactions.Insert(view, held, TransactionKey(id), refused,
                          after.(locks := txn.locks + {IdempotencyKey(row.key)},
                                 facts := txn.facts + [Answered(row.key, id, row.purchase)]))
  }

  function ReuseEffect(view: Tables, txn: Txn, id: Id, purchase: Purchase): Effect {
    if id !in view.transactions || view.transactions[id].purchase != purchase then Raised(txn)
    else Next(txn.(facts := txn.facts + [Answered(view.transactions[id].key, id, purchase)]))
  }

  /** An UPDATE of a locked row. */
  function ChangeEffect(view: Tables, txn: Txn, held: set<Key>, a: Action): Effect
    requires !a.Insert? && !a.Reuse?
  {
    var id := a.transactionId;
    if TransactionKey(id) !in txn.locks || id !in view.transactions then Raised(txn)
    else
      var before := view.transactions[id];
      if IdempotencyKey(before.key) in held then Blocked
      else
        var (after, refusal) := Change(before, a);
        Next(Put(txn, id, after).(locks := txn.locks + {IdempotencyKey(before.key)},
                                  facts := txn.facts + Moved(before, after, id),
                                  raised := txn.raised || refusal.Some?))
  }

  function Effects(view: Tables, txn: Txn, held: set<Key>, a: Action): Effect {
    match a
    case Insert(id, row, refused) => InsertEffect(view, txn, held, id, row, refused)
    case Reuse(id, purchase) => ReuseEffect(view, txn, id, purchase)
    case _ => ChangeEffect(view, txn, held, a)
  }

  /** What an insert that is let through does to its transaction. */
  lemma InsertAdds(view: Tables, txn: Txn, held: set<Key>, id: Id, row: TransactionRow, refused: bool)
    ensures var r := InsertEffect(view, txn, held, id, row, refused);
            r.Next? ==>
              && id !in view.transactions && !KeyTaken(view.transactions, row.key) && row.purchase.amountPaise >= 0
              && r.txn == Put(txn, id, row).(locks := txn.locks + {IdempotencyKey(row.key), TransactionKey(id)},
                                             facts := txn.facts + [Answered(row.key, id, row.purchase)])
    ensures var r := InsertEffect(view, txn, held, id, row, refused);
            r.Failed? ==>
              || refused || id in view.transactions || KeyTaken(view.transactions, row.key)
              || row.purchase.amountPaise < 0
  {
    assert txn.locks + {IdempotencyKey(row.key)} + {TransactionKey(id)} ==
             txn.locks + {IdempotencyKey(row.key), TransactionKey(id)};
  }

  /** What an update does to the rows and facts of its transaction. */
  lemma ChangePuts(view: Tables, txn: Txn, held: set<Key>, a: Action)
    requires !a.Insert? && !a.Reuse?
    ensures var r := ChangeEffect(view, txn, held, a);
            var id := a.transactionId;
            r.Next? ==>
              || (r.txn.pending == txn.pending && r.txn.facts == txn.facts)
              || (id in view.transactions
                  && var after := Change(view.transactions[id], a).0;
                  && r.txn.pending.transactions == txn.pending.transactions[id := after]
                  && r.txn.facts == txn.facts + Moved(view.transactions[id], after, id))
  {
  }

  lemma ChangeKeepsKey(r: TransactionRow, a: Action)
    requires !a.Insert? && !a.Reuse?
    ensures Change(r, a).0.key == r.key && Change(r, a).0.purchase == r.purchase
  {
  }

  lemma PutIsFair(txn: Txn, held: set<Key>, id: Id, row: TransactionRow, facts: seq<Fact>, raised: bool)
    requires TransactionKey(id) !in held && IdempotencyKey(row.key) !in held
    ensures Fair(txn, held,
                 Next(Put(txn, id, row).(locks := txn.locks + {IdempotencyKey(row.key)} + {TransactionKey(id)},
                                                    facts := facts, raised := raised)))
  {
  }

  lemma InsertIsFair(view: Tables, txn: Txn, held: set<Key>, id: Id, row: TransactionRow, refused: bool)
    ensures Fair(txn, held, InsertEffect(view, txn, held, id, row, refused))
  {
    if TransactionKey(id) !in held && IdempotencyKey(row.key) !in held {
      PutIsFair(txn, held, id, row, txn.facts + [Answered(row.key, id, row.purchase)], txn.raised);
    }
  }

  lemma ChangeIsFair(view: Tables, txn: Txn, held: set<Key>, a: Action)
    requires !a.Insert? && !a.Reuse?
    ensures Fair(txn, held, ChangeEffect(view, txn, held, a))
  {
    var id := a.transactionId;
    if TransactionKey(id) in txn.locks && txn.locks !! held && id in view.transactions {
      var before := view.transactions[id];
      if IdempotencyKey(before.key) !in held {
        ChangeKeepsKey(before, a);
        var (after, refusal) := Change(before, a);
        PutIsFair(txn, held, id, after, txn.facts + Moved(before, after, id), txn.raised || refusal.Some?);
        assert txn.locks + {IdempotencyKey(after.key)} + {TransactionKey(id)} ==
                 txn.locks + {IdempotencyKey(before.key)};
      }
    }
  }

  lemma EffectsFair(view: Tables, txn: Txn, held: set<Key>, a: Action)
    ensures Fair(txn, held, Effects(view, txn, held, a))
  {
    match a
    case Insert(id, row, refused) => InsertIsFair(view, txn, held, id, row, refused);
    case Reuse(_, _) =>
    case _ => ChangeIsFair(view, txn, held, a);
  }

  /** Nothing but the transaction rows and the facts changes, and the facts only grow by ones of this kind. */
  lemma EffectsFrame(view: Tables, txn: Txn, held: set<Key>, a: Action)
    ensures var r := Effects(view, txn, held, a);
            r.Next? ==> r.txn == txn.(pending := txn.pending.(transactions := r.txn.pending.transactions),
                                      locks := r.txn.locks, facts := r.txn.facts, raised := r.txn.raised)
    ensures var r := Effects(view, txn, held, a);
            r.Next? ==> LocksNoMandate(txn, r.txn)
    ensures var r := Effects(view, txn, held, a);
            r.Next? ==> r.txn.facts == txn.facts
                        || exists f: Fact :: (f.Answered? || f.Entered?) && r.txn.facts == txn.facts + [f]
  {
    FactsFrame(view, txn, held, a);
  }

  lemma FactsFrame(view: Tables, txn: Txn, held: set<Key>, a: Action)
    ensures var r := Effects(view, txn, held, a);
            r.Next? ==> r.txn.facts == txn.facts
                        || exists f: Fact :: (f.Answered? || f.Entered?) && r.txn.facts == txn.facts + [f]
  {
    if !a.Insert? && !a.Reuse? && a.transactionId in view.transactions {
      var before := view.transactions[a.transactionId];
      var facts := Moved(before, Change(before, a).0, a.transactionId);
      assert txn.facts + [] == txn.facts;
    }
  }

  /** The transaction as it was, but for what the provider reported. */
  predicate OnlyNoted(before: TransactionRow, after: TransactionRow, status: string, payment: Option<string>) {
    after == before.(providerStatus := Some(status),
                     providerPaymentId := if payment.Some? then payment else before.providerPaymentId)
  }

  /** The report sends a transaction in that state where it cannot go. */
  predicate Refuses(upper: string, from: State) {
    || (upper in {"SUCCESS", "CAPTURED", "PAID"} && !CanMove(from, Success))
    || (upper in {"FAILURE", "FAILED", "DECLINED"} && !CanMove(from, Failure))
  }

  /** Where each text the provider can report sends the transaction, and what it leaves of it. */
  lemma ReportMoves(r: TransactionRow, status: string, payment: Option<string>, upper: string)
    ensures var (after, refusal) := ReportRow(r, status, payment, upper);
            && (refusal.Some? <==> Refuses(upper, r.state))
            && OnlyNoted(r, after.(state := r.state), status, payment)
            && after.state == (if Refuses(upper, r.state) then r.state
                               else if upper in {"SUCCESS", "CAPTURED", "PAID"} then Success
                               else if upper in {"FAILURE", "FAILED", "DECLINED"} then Failure
                               else r.state)
  {
  }

  /** A dispatch moves an authorized transaction and sets the provider's fields, or changes nothing. */
  lemma DispatchMoves(r: TransactionRow, payment: Option<string>)
    ensures var (after, refusal) := DispatchRow(r, payment);
            if r.state == Authorized
            then refusal.None? && OnlyNoted(r.(state := Executing), after, "DISPATCHED", payment)
            else refusal.Some? && after == r
  {
    EnteredFromIff(r.state, Executing);
  }

  /** An outcome that is neither a success nor a failure is noted, and never moves the transaction. */
  lemma UnknownOutcomeMovesNothing(r: TransactionRow, status: string, payment: Option<string>, upper: string)
    requires upper !in {"SUCCESS", "CAPTURED", "PAID", "FAILURE", "FAILED", "DECLINED"}
    ensures var (after, refusal) := ReportRow(r, status, payment, upper);
            refusal.None? && OnlyNoted(r, after, status, payment)
  {
  }

  /**
    A report that sends the transaction where it cannot go is refused, but what the provider reported is
    already written into the session: the row is as it was exactly when the report said nothing new.
   */
  lemma RefusedOutcomeIsWrittenIff(r: TransactionRow, status: string, payment: Option<string>, upper: string)
    requires Refuses(upper, r.state)
    ensures ReportRow(r, status, payment, upper).1.Some?
    ensures OnlyNoted(r, ReportRow(r, status, payment, upper).0, status, payment)
    ensures ReportRow(r, status, payment, upper).0 == r <==>
              r.providerStatus == Some(status) && (payment.None? || payment == r.providerPaymentId)
  {
  }
}
