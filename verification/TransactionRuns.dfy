/** Idempotency keys and the state machine of transactions over every run. */
module TransactionRuns {
  import opened Outcomes
  import opened Rows
  import opened Transactions
  import opened TransactionStates
  import opened TransactionSteps
  import opened Store
  import AuditSteps

  type TransactionRows = map<Id, TransactionRow>

  /** No two transactions share an idempotency key. */
  ghost predicate UniqueKeys(rows: TransactionRows) {
    forall a, b :: a in rows && b in rows && rows[a].key == rows[b].key ==> a == b
  }

  /** From a row to the same row later: same key and purchase, and a state that is the same or further on. */
  predicate Progresses(a: TransactionRow, b: TransactionRow) {
    && b.key == a.key && b.purchase == a.purchase
    && (b.state == a.state || (!Terminal(a.state) && Stage(a.state) < Stage(b.state) && b.state != Receipt))
  }

  ghost predicate Keeps(rows: TransactionRows, next: TransactionRows) {
    forall id <- rows :: id in next && Progresses(rows[id], next[id])
  }

  /** Every answer of create_transaction names a row with the key and the purchase it was asked for. */
  ghost predicate AnswersStand(facts: seq<Fact>, rows: TransactionRows) {
    forall i | 0 <= i < |facts| && facts[i].Answered? :: Answers(facts[i], rows)
  }

  ghost predicate Answers(f: Fact, rows: TransactionRows)
    requires f.Answered?
  {
    f.transactionId in rows && rows[f.transactionId].key == f.key && rows[f.transactionId].purchase == f.purchase
  }

  /** A row has got at least as far as each state it is known to have entered. */
  ghost predicate EntriesStand(facts: seq<Fact>, rows: TransactionRows) {
    forall i | 0 <= i < |facts| && facts[i].Entered? :: Reached(facts[i], rows)
  }

  ghost predicate Reached(f: Fact, rows: TransactionRows)
    requires f.Entered?
  {
    f.transactionId in rows && Stage(f.state) <= Stage(rows[f.transactionId].state)
  }

  /** The states a transaction enters lie further and further on. */
  ghost predicate Advances(facts: seq<Fact>) {
    forall i, j | 0 <= i < j < |facts| && facts[i].Entered? && facts[j].Entered?
      && facts[i].transactionId == facts[j].transactionId ::
      Stage(facts[i].state) < Stage(facts[j].state)
  }

  /** What a transaction's own entries are beyond. */
  ghost predicate Beyond(facts: seq<Fact>, durable: TransactionRows) {
    forall i | 0 <= i < |facts| && facts[i].Entered? && facts[i].transactionId in durable ::
      Stage(durable[facts[i].transactionId].state) < Stage(facts[i].state)
  }

  ghost predicate Progress(durable: TransactionRows, pending: TransactionRows) {
    && UniqueKeys(durable + pending)
    && (forall id <- pending :: id in durable ==> Progresses(durable[id], pending[id]))
  }

  ghost predicate Entries(durable: TransactionRows, pending: TransactionRows, facts: seq<Fact>) {
    EntriesStand(facts, pending) && Advances(facts) && Beyond(facts, durable)
  }

  ghost predicate TxnPays(durable: TransactionRows, pending: TransactionRows, facts: seq<Fact>) {
    Progress(durable, pending) && AnswersStand(facts, durable + pending) && Entries(durable, pending, facts)
  }

  ghost predicate PayInv(w: World) {
    && UniqueKeys(w.tables.transactions)
    && AnswersStand(w.journal, w.tables.transactions) && EntriesStand(w.journal, w.tables.transactions)
       && Advances(w.journal)
    && (forall x <- w.open :: TxnPays(w.tables.transactions, w.open[x].pending.transactions, w.open[x].facts))
  }

  // ---------------------------------------------------------------------------------------------
  // One statement
  // ---------------------------------------------------------------------------------------------

  lemma ProgressesOn(a: TransactionRow, b: TransactionRow, d: TransactionRow)
    requires Progresses(a, b) && Progresses(b, d)
    ensures Progresses(a, d)
  {
  }

  /** However a locked row is changed, it only progresses. */
  lemma ChangeProgresses(r: TransactionRow, a: TransactionSteps.Action)
    requires !a.Insert? && !a.Reuse?
    ensures Progresses(r, Change(r, a).0)
    ensures Change(r, a).0.state != r.state ==> Stage(r.state) < Stage(Change(r, a).0.state)
  {
    var next := Change(r, a).0;
    if next.state != r.state {
      assert CanMove(r.state, next.state);
      MovesGoForward(r.state, next.state);
      ReceiptIsNeverReached(r.state);
    }
  }

  lemma AddRow(durable: TransactionRows, pending: TransactionRows, id: Id, row: TransactionRow)
    requires Progress(durable, pending) && id !in durable + pending && !KeyTaken(durable + pending, row.key)
    ensures Progress(durable, pending[id := row])
  {
    assert durable + pending[id := row] == (durable + pending)[id := row];
  }

  lemma ReplaceRow(durable: TransactionRows, pending: TransactionRows, id: Id, row: TransactionRow)
    requires Progress(durable, pending) && id in durable + pending && Progresses((durable + pending)[id], row)
    ensures Progress(durable, pending[id := row])
  {
    assert durable + pending[id := row] == (durable + pending)[id := row];
    if id in durable {
      ProgressesOn(durable[id], (durable + pending)[id], row);
    }
  }

  lemma AnswersKept(facts: seq<Fact>, rows: TransactionRows, next: TransactionRows)
    requires AnswersStand(facts, rows) && Keeps(rows, next)
    ensures AnswersStand(facts, next)
  {
    forall i | 0 <= i < |facts| && facts[i].Answered? ensures Answers(facts[i], next) {
      assert Answers(facts[i], rows);
    }
  }

  lemma PutKeeps(rows: TransactionRows, id: Id, row: TransactionRow)
    requires id in rows ==> Progresses(rows[id], row)
    ensures Keeps(rows, rows[id := row])
  {
  }

  lemma EntriesKept(durable: TransactionRows, pending: TransactionRows, facts: seq<Fact>, id: Id, row: TransactionRow)
    requires Entries(durable, pending, facts) && (id in pending ==> Progresses(pending[id], row))
    ensures Entries(durable, pending[id := row], facts)
  {
    forall i | 0 <= i < |facts| && facts[i].Entered? ensures Reached(facts[i], pending[id := row]) {
      assert Reached(facts[i], pending);
    }
  }

  /** Entering a state beyond the one the worker sees keeps the entries in order. */
  lemma EntryAdded(durable: TransactionRows, pending: TransactionRows, facts: seq<Fact>, id: Id, row: TransactionRow)
    requires Entries(durable, pending, facts) && id in durable + pending
    requires Stage((durable + pending)[id].state) < Stage(row.state)
    requires id in pending ==> Progresses(pending[id], row)
    requires id in durable && id in pending ==> Progresses(durable[id], pending[id])
    ensures Entries(durable, pending[id := row], facts + [Entered(id, row.state)])
  {
    EntriesKept(durable, pending, facts, id, row);
    forall i | 0 <= i < |facts| && facts[i].Entered? && facts[i].transactionId == id
      ensures Stage(facts[i].state) < Stage(row.state)
    {
      assert Reached(facts[i], pending);
    }
  }

  lemma AnswerAdded(durable: TransactionRows, pending: TransactionRows, facts: seq<Fact>, f: Fact)
    requires TxnPays(durable, pending, facts) && f.Answered? && Answers(f, durable + pending)
    ensures TxnPays(durable, pending, facts + [f])
  {
  }

  lemma OtherFactAdded(durable: TransactionRows, pending: TransactionRows, facts: seq<Fact>, f: Fact)
    requires TxnPays(durable, pending, facts) && !f.Answered? && !f.Entered?
    ensures TxnPays(durable, pending, facts + [f])
  {
  }

  lemma InsertPays(durable: TransactionRows, pending: TransactionRows, facts: seq<Fact>, id: Id, row: TransactionRow)
    requires TxnPays(durable, pending, facts) && id !in durable + pending && !KeyTaken(durable + pending, row.key)
    ensures TxnPays(durable, pending[id := row], facts + [Answered(row.key, id, row.purchase)])
  {
    AddRow(durable, pending, id, row);
    assert durable + pending[id := row] == (durable + pending)[id := row];
    PutKeeps(durable + pending, id, row);
    AnswersKept(facts, durable + pending, durable + pending[id := row]);
    EntriesKept(durable, pending, facts, id, row);
    AnswerAdded(durable, pending[id := row], facts, Answered(row.key, id, row.purchase));
  }

  lemma ChangePays(durable: TransactionRows, pending: TransactionRows, facts: seq<Fact>, a: TransactionSteps.Action)
    requires TxnPays(durable, pending, facts) && !a.Insert? && !a.Reuse? && a.transactionId in durable + pending
    ensures var id, before := a.transactionId, (durable + pending)[a.transactionId];
            var after := Change(before, a).0;
            TxnPays(durable, pending[id := after], facts + Moved(before, after, id))
  {
    var id, before := a.transactionId, (durable + pending)[a.transactionId];
    var after := Change(before, a).0;
    ChangeProgresses(before, a);
    ReplaceRow(durable, pending, id, after);
    assert durable + pending[id := after] == (durable + pending)[id := after];
    PutKeeps(durable + pending, id, after);
    AnswersKept(facts, durable + pending, durable + pending[id := after]);
    if after.state == before.state {
      EntriesKept(durable, pending, facts, id, after);
      assert facts + [] == facts;
    } else {
      EntryAdded(durable, pending, facts, id, after);
    }
  }

  lemma InsertStep(tables: Tables, txn: Txn, held: set<Key>, id: Id, row: TransactionRow, refused: bool)
    requires TxnPays(tables.transactions, txn.pending.transactions, txn.facts)
    ensures var r := InsertEffect(Overlay(tables, txn.pending), txn, held, id, row, refused);
            r.Next? ==> TxnPays(tables.transactions, r.txn.pending.transactions, r.txn.facts)
  {
    InsertAdds(Overlay(tables, txn.pending), txn, held, id, row, refused);
    var rows := tables.transactions + txn.pending.transactions;
    if id !in rows && !KeyTaken(rows, row.key) {
      InsertPays(tables.transactions, txn.pending.transactions, txn.facts, id, row);
    }
  }

  lemma ReuseStep(tables: Tables, txn: Txn, id: Id, purchase: Purchase)
    requires TxnPays(tables.transactions, txn.pending.transactions, txn.facts)
    ensures var r := ReuseEffect(Overlay(tables, txn.pending), txn, id, purchase);
            r.Next? ==> TxnPays(tables.transactions, r.txn.pending.transactions, r.txn.facts)
  {
    var rows := tables.transactions + txn.pending.transactions;
    if id in rows && rows[id].purchase == purchase {
      AnswerAdded(tables.transactions, txn.pending.transactions, txn.facts, Answered(rows[id].key, id, purchase));
    }
  }

  lemma ChangeStep(tables: Tables, txn: Txn, held: set<Key>, a: TransactionSteps.Action)
    requires TxnPays(tables.transactions, txn.pending.transactions, txn.facts) && !a.Insert? && !a.Reuse?
    ensures var r := ChangeEffect(Overlay(tables, txn.pending), txn, held, a);
            r.Next? ==> TxnPays(tables.transactions, r.txn.pending.transactions, r.txn.facts)
  {
    ChangePuts(Overlay(tables, txn.pending), txn, held, a);
    if a.transactionId in tables.transactions + txn.pending.transactions {
      ChangePays(tables.transactions, txn.pending.transactions, txn.facts, a);
    }
  }

  lemma PayStep(tables: Tables, txn: Txn, held: set<Key>, a: TransactionSteps.Action)
    requires TxnPays(tables.transactions, txn.pending.transactions, txn.facts)
    ensures var r := TransactionSteps.Effects(Overlay(tables, txn.pending), txn, held, a);
            r.Next? ==> TxnPays(tables.transactions, r.txn.pending.transactions, r.txn.facts)
  {
    match a
    case Insert(id, row, refused) => InsertStep(tables, txn, held, id, row, refused);
    case Reuse(id, purchase) => ReuseStep(tables, txn, id, purchase);
    case _ => ChangeStep(tables, txn, held, a);
  }

  lemma EffectsPay(c: AuditSteps.Codec, tables: Tables, txn: Txn, held: set<Key>, a: Store.Action)
    requires TxnPays(tables.transactions, txn.pending.transactions, txn.facts) && a != Commit
    ensures var r := Store.Effects(c, tables, txn, held, a);
            r.Next? ==> TxnPays(tables.transactions, r.txn.pending.transactions, r.txn.facts)
  {
    if a.Pay? {
      PayStep(tables, txn, held, a.pay);
    } else {
      Store.EffectsFrame(c, tables, txn, held, a);
      var r := Store.Effects(c, tables, txn, held, a);
      if r.Next? && r.txn.facts != txn.facts {
        var f :| Adds(a, f) && r.txn.facts == txn.facts + [f];
        OtherFactAdded(tables.transactions, txn.pending.transactions, txn.facts, f);
      }
    }
  }

  // ---------------------------------------------------------------------------------------------
  // Commits
  // ---------------------------------------------------------------------------------------------

  lemma KeysStayApart(durable: TransactionRows, mine: TransactionRows, other: TransactionRows)
    requires UniqueKeys(durable + mine) && UniqueKeys(durable + other) && mine.Keys !! other.Keys
    requires forall a <- mine, b <- other :: mine[a].key != other[b].key
    ensures UniqueKeys(durable + mine + other)
  {
    var all := durable + mine + other;
    forall a, b | a in all && b in all && all[a].key == all[b].key ensures a == b {
      if a !in mine && b !in mine {
        assert all[a] == (durable + other)[a] && all[b] == (durable + other)[b];
      } else if a !in other && b !in other {
        assert all[a] == (durable + mine)[a] && all[b] == (durable + mine)[b];
      }
    }
  }

  lemma OthersProgress(durable: TransactionRows, mine: TransactionRows, other: TransactionRows)
    requires Progress(durable, other) && Progress(durable, mine) && mine.Keys !! other.Keys
    requires forall a <- mine, b <- other :: mine[a].key != other[b].key
    ensures Progress(durable + mine, other) && Keeps(durable + other, durable + mine + other)
  {
    KeysStayApart(durable, mine, other);
  }

  lemma OthersAreBeyond(durable: TransactionRows, mine: TransactionRows, other: TransactionRows, facts: seq<Fact>)
    requires Entries(durable, other, facts) && mine.Keys !! other.Keys
    ensures Entries(durable + mine, other, facts)
  {
    forall i | 0 <= i < |facts| && facts[i].Entered? && facts[i].transactionId in durable + mine
      ensures Stage((durable + mine)[facts[i].transactionId].state) < Stage(facts[i].state)
    {
      assert Reached(facts[i], other);
    }
  }

  lemma OthersKeep(durable: TransactionRows, mine: TransactionRows, other: TransactionRows, facts: seq<Fact>)
    requires TxnPays(durable, other, facts) && Progress(durable, mine) && mine.Keys !! other.Keys
    requires forall a <- mine, b <- other :: mine[a].key != other[b].key
    ensures TxnPays(durable + mine, other, facts)
  {
    OthersProgress(durable, mine, other);
    AnswersKept(facts, durable + other, durable + mine + other);
    OthersAreBeyond(durable, mine, other, facts);
  }

  lemma CommitKeepsOthers(tables: Tables, mine: Txn, other: Txn)
    requires TxnPays(tables.transactions, other.pending.transactions, other.facts)
    requires Progress(tables.transactions, mine.pending.transactions)
    requires OwnsItsRows(mine) && OwnsItsRows(other) && mine.locks !! other.locks
    ensures TxnPays(tables.transactions + mine.pending.transactions, other.pending.transactions, other.facts)
  {
    var p, q := mine.pending.transactions, other.pending.transactions;
    forall id <- q ensures id !in p {
      assert TransactionKey(id) in other.locks;
    }
    forall a <- p, b <- q ensures p[a].key != q[b].key {
      assert IdempotencyKey(p[a].key) in mine.locks && IdempotencyKey(q[b].key) in other.locks;
    }
    OthersKeep(tables.transactions, p, q, other.facts);
  }

  lemma JournalGrows(durable: TransactionRows, pending: TransactionRows, journal: seq<Fact>, facts: seq<Fact>)
    requires TxnPays(durable, pending, facts)
    requires AnswersStand(journal, durable) && EntriesStand(journal, durable) && Advances(journal)
    ensures AnswersStand(journal + facts, durable + pending) && EntriesStand(journal + facts, durable + pending)
    ensures Advances(journal + facts)
    ensures Keeps(durable, durable + pending)
  {
    AnswersKept(journal, durable, durable + pending);
    forall i | 0 <= i < |journal| && journal[i].Entered? ensures Reached(journal[i], durable + pending) {
      assert Reached(journal[i], durable);
    }
    forall i | 0 <= i < |facts| && facts[i].Entered? ensures Reached(facts[i], durable + pending) {
      assert Reached(facts[i], pending);
    }
    forall i, j | 0 <= i < |journal| && 0 <= j < |facts| && journal[i].Entered? && facts[j].Entered?
                  && journal[i].transactionId == facts[j].transactionId
      ensures Stage(journal[i].state) < Stage(facts[j].state)
    {
      assert Reached(journal[i], durable);
    }
  }

  lemma BeginPays(durable: TransactionRows)
    requires UniqueKeys(durable)
    ensures TxnPays(durable, map[], [])
  {
    assert durable + map[] == durable;
  }

  lemma CommitPays(c: AuditSteps.Codec, w: World, e: Event)
    requires Isolated(w) && PayInv(w) && e.action == Commit
    ensures PayInv(Apply(c, w, e)) && Keeps(w.tables.transactions, Apply(c, w, e).tables.transactions)
  {
    var txn := TxnOf(w, e.worker);
    BeginPays(w.tables.transactions);
    OthersHoldOthers(w, e.worker);
    JournalGrows(w.tables.transactions, txn.pending.transactions, w.journal, txn.facts);
    forall y | y in w.open && y != e.worker
      ensures TxnPays(Apply(c, w, e).tables.transactions, w.open[y].pending.transactions, w.open[y].facts)
    {
      CommitKeepsOthers(w.tables, txn, w.open[y]);
    }
  }

  lemma ApplyPays(c: AuditSteps.Codec, w: World, e: Event)
    requires Isolated(w) && PayInv(w)
    ensures PayInv(Apply(c, w, e)) && Keeps(w.tables.transactions, Apply(c, w, e).tables.transactions)
  {
    if e.action == Commit {
      CommitPays(c, w, e);
    } else {
      OneTransactionSteps(c, w, e);
      BeginPays(w.tables.transactions);
      EffectsPay(c, w.tables, TxnOf(w, e.worker), HeldByOthers(w, e.worker), e.action);
    }
  }

  // ---------------------------------------------------------------------------------------------
  // Whole runs
  // ---------------------------------------------------------------------------------------------

  lemma KeepsOn(a: TransactionRows, b: TransactionRows, d: TransactionRows)
    requires Keeps(a, b) && Keeps(b, d)
    ensures Keeps(a, d)
  {
    forall id <- a ensures id in d && Progresses(a[id], d[id]) {
      ProgressesOn(a[id], b[id], d[id]);
    }
  }

  /**
    Over every run keys stay unique, a durable transaction keeps its key and purchase, and its state only
    goes forward, never out of a terminal one.
   */
  lemma {:induction false} RowsProgress(c: AuditSteps.Codec, w: World, schedule: seq<Event>)
    requires Isolated(w) && PayInv(w)
    ensures Isolated(Exec(c, w, schedule)) && PayInv(Exec(c, w, schedule))
    ensures Keeps(w.tables.transactions, Exec(c, w, schedule).tables.transactions)
  {
    if schedule != [] {
      var before, last := schedule[..|schedule| - 1], schedule[|schedule| - 1];
      RowsProgress(c, w, before);
      ApplyIsolated(c, Exec(c, w, before), last);
      ApplyPays(c, Exec(c, w, before), last);
      KeepsOn(w.tables.transactions, Exec(c, w, before).tables.transactions, Exec(c, w, schedule).tables.transactions);
    }
  }

  /** Two answers name the same transaction exactly if they are for the same key, and then for the same purchase. */
  predicate Agree(a: Fact, b: Fact)
    requires a.Answered? && b.Answered?
  {
    (a.key == b.key <==> a.transactionId == b.transactionId) && (a.key == b.key ==> a.purchase == b.purchase)
  }

  /**
    Idempotency under any interleaving: all committed answers of create_transaction agree. One key stands for
    one transaction and one purchase, and one transaction for one key.
   */
  lemma CreationsAgree(c: AuditSteps.Codec, w: World, schedule: seq<Event>)
    requires Quiet(w) && UniqueKeys(w.tables.transactions)
    ensures var journal := Exec(c, w, schedule).journal;
            forall i, j | 0 <= i < j < |journal| && journal[i].Answered? && journal[j].Answered? ::
              Agree(journal[i], journal[j])
  {
    RowsProgress(c, w, schedule);
    var after := Exec(c, w, schedule);
    forall i, j | 0 <= i < j < |after.journal| && after.journal[i].Answered? && after.journal[j].Answered?
      ensures Agree(after.journal[i], after.journal[j])
    {
      assert Answers(after.journal[i], after.tables.transactions)
             && Answers(after.journal[j], after.tables.transactions);
    }
  }

  /** A durable transaction in a terminal state stays in it, whatever workers do. */
  lemma TerminalStays(c: AuditSteps.Codec, w: World, schedule: seq<Event>, id: Id)
    requires Isolated(w) && PayInv(w) && id in w.tables.transactions && Terminal(w.tables.transactions[id].state)
    ensures id in Exec(c, w, schedule).tables.transactions
    ensures Exec(c, w, schedule).tables.transactions[id].state == w.tables.transactions[id].state
  {
    RowsProgress(c, w, schedule);
  }

  /**
    No transaction enters a state twice, over all committed work of all workers: in particular it is
    dispatched to the provider at most once, and at most one outcome is entered, as its entries lie further
    and further on and both outcomes lie equally far.
   */
  lemma EveryStateIsEnteredOnce(c: AuditSteps.Codec, w: World, schedule: seq<Event>)
    requires Quiet(w) && UniqueKeys(w.tables.transactions)
    ensures var journal := Exec(c, w, schedule).journal;
            forall i, j | 0 <= i < j < |journal| && journal[i].Entered? && journal[j].Entered? ::
              journal[i] != journal[j]
    ensures Advances(Exec(c, w, schedule).journal) && OneOutcome(Exec(c, w, schedule).journal)
  {
    RowsProgress(c, w, schedule);
    AdvancingEntersOnce(Exec(c, w, schedule).journal);
  }

  lemma AdvancingEntersOnce(facts: seq<Fact>)
    requires Advances(facts)
    ensures forall i, j | 0 <= i < j < |facts| && facts[i].Entered? && facts[j].Entered? :: facts[i] != facts[j]
    ensures OneOutcome(facts)
  {
  }

  /** No transaction enters two of the states that an outcome can lead to, nor one of them twice. */
  ghost predicate OneOutcome(facts: seq<Fact>) {
    forall i, j | 0 <= i < j < |facts| && facts[i].Entered? && facts[j].Entered?
                  && facts[i].state in {Success, Failure} && facts[j].state in {Success, Failure} ::
      facts[i].transactionId != facts[j].transactionId
  }

  // ---------------------------------------------------------------------------------------------
  // RECEIPT
  // ---------------------------------------------------------------------------------------------

  ghost predicate WithoutReceipts(rows: TransactionRows) {
    forall id <- rows :: rows[id].state != Receipt
  }

  ghost predicate NoReceipts(w: World) {
    WithoutReceipts(w.tables.transactions) && forall x <- w.open :: WithoutReceipts(w.open[x].pending.transactions)
  }

  /** The statement inserts no transaction that is in RECEIPT already. */
  predicate InsertsNoReceipt(a: Store.Action) {
    a.Pay? && a.pay.Insert? ==> a.pay.row.state != Receipt
  }

  lemma ChangesMakeNoReceipt(view: Tables, txn: Txn, held: set<Key>, a: TransactionSteps.Action)
    requires WithoutReceipts(view.transactions) && WithoutReceipts(txn.pending.transactions) && !a.Insert? && !a.Reuse?
    ensures var r := ChangeEffect(view, txn, held, a); r.Next? ==> WithoutReceipts(r.txn.pending.transactions)
  {
    ChangePuts(view, txn, held, a);
    if a.transactionId in view.transactions {
      ChangeProgresses(view.transactions[a.transactionId], a);
    }
  }

  lemma PaymentsMakeNoReceipt(view: Tables, txn: Txn, held: set<Key>, a: TransactionSteps.Action)
    requires WithoutReceipts(view.transactions) && WithoutReceipts(txn.pending.transactions)
    requires a.Insert? ==> a.row.state != Receipt
    ensures var r := TransactionSteps.Effects(view, txn, held, a);
            r.Next? ==> WithoutReceipts(r.txn.pending.transactions)
  {
    match a
    case Insert(id, row, refused) => InsertsMakeNoReceipt(view, txn, held, id, row, refused);
    case Reuse(_, _) =>
    case _ => ChangesMakeNoReceipt(view, txn, held, a);
  }

  lemma InsertsMakeNoReceipt(view: Tables, txn: Txn, held: set<Key>, id: Id, row: TransactionRow, refused: bool)
    requires WithoutReceipts(txn.pending.transactions) && row.state != Receipt
    ensures var r := InsertEffect(view, txn, held, id, row, refused);
            r.Next? ==> WithoutReceipts(r.txn.pending.transactions)
  {
    InsertAdds(view, txn, held, id, row, refused);
  }

  lemma EffectsMakeNoReceipt(c: AuditSteps.Codec, tables: Tables, txn: Txn, held: set<Key>, a: Store.Action)
    requires WithoutReceipts(tables.transactions) && WithoutReceipts(txn.pending.transactions)
    requires a != Commit && InsertsNoReceipt(a)
    ensures var r := Store.Effects(c, tables, txn, held, a); r.Next? ==> WithoutReceipts(r.txn.pending.transactions)
  {
    if a.Pay? {
      PaymentsMakeNoReceipt(Overlay(tables, txn.pending), txn, held, a.pay);
    } else {
      Store.EffectsFrame(c, tables, txn, held, a);
    }
  }

  /** RECEIPT is a state a transaction can be created in, and no other way leads to it. */
  lemma {:induction false} NoReceiptOverRuns(c: AuditSteps.Codec, w: World, schedule: seq<Event>)
    requires NoReceipts(w) && forall i | 0 <= i < |schedule| :: InsertsNoReceipt(schedule[i].action)
    ensures NoReceipts(Exec(c, w, schedule))
  {
    if schedule != [] {
      var before, last := schedule[..|schedule| - 1], schedule[|schedule| - 1];
      NoReceiptOverRuns(c, w, before);
      ApplyMakesNoReceipt(c, Exec(c, w, before), last);
    }
  }

  lemma ApplyMakesNoReceipt(c: AuditSteps.Codec, w: World, e: Event)
    requires NoReceipts(w) && InsertsNoReceipt(e.action)
    ensures NoReceipts(Apply(c, w, e))
  {
    if e.action != Commit {
      OneTransactionSteps(c, w, e);
      EffectsMakeNoReceipt(c, w.tables, TxnOf(w, e.worker), HeldByOthers(w, e.worker), e.action);
    }
  }

  // ---------------------------------------------------------------------------------------------
  // A refused outcome, caught and committed
  // ---------------------------------------------------------------------------------------------

  /** Lock the transaction, report an outcome, and commit, whatever the report raised. */
  function CaughtReport(id: Id, status: string, payment: Option<string>, upper: string): seq<Event> {
    [Event(0, LockRow(TransactionKey(id))), Event(0, Pay(Report(id, status, payment, upper))), Event(0, Commit)]
  }

  function OnlyTransaction(id: Id, row: TransactionRow): World {
    World(EMPTY.(transactions := map[id := row]), map[], [])
  }

  lemma ReportRefused(tables: Tables, t: Txn, id: Id, row: TransactionRow, status: string, payment: Option<string>,
                      upper: string)
    requires tables.transactions == map[id := row] && t == BEGIN.(locks := {TransactionKey(id)})
    requires Refuses(upper, row.state)
    ensures TransactionSteps.Effects(tables, t, {}, Report(id, status, payment, upper)) ==
            Next(Put(t, id, Noted(row, status, payment)).(locks := t.locks + {IdempotencyKey(row.key)}, raised := true))
  {
    assert t.facts + [] == t.facts;
  }

  lemma LockThenReport(c: AuditSteps.Codec, w: World, id: Id, row: TransactionRow, status: string,
                       payment: Option<string>, upper: string)
    requires w == OnlyTransaction(id, row) && Refuses(upper, row.state)
    ensures var t1 := BEGIN.(locks := {TransactionKey(id)});
            var t2 := Put(t1, id, Noted(row, status, payment))
                        .(locks := t1.locks + {IdempotencyKey(row.key)}, raised := true);
            Apply(c, Apply(c, w, Event(0, LockRow(TransactionKey(id)))),
                  Event(0, Pay(Report(id, status, payment, upper)))) ==
            World(w.tables, map[0 := t2], [])
  {
    var t1 := BEGIN.(locks := {TransactionKey(id)});
    assert Overlay(w.tables, EMPTY) == w.tables;
    StepAlone(c, w, 0, LockRow(TransactionKey(id)), t1);
    ReportRefused(w.tables, t1, id, row, status, payment, upper);
    PayEffects(c, w.tables, t1, {}, Report(id, status, payment, upper));
    var t2 := Put(t1, id, Noted(row, status, payment)).(locks := t1.locks + {IdempotencyKey(row.key)}, raised := true);
    StepAlone(c, World(w.tables, map[0 := t1], []), 0, Pay(Report(id, status, payment, upper)), t2);
  }

  /** A refused outcome that is caught and committed is durable, although the transaction did not move. */
  lemma CaughtReportIsKept(c: AuditSteps.Codec, id: Id, row: TransactionRow, status: string, payment: Option<string>,
                           upper: string)
    requires Refuses(upper, row.state)
    ensures var rows := Exec(c, OnlyTransaction(id, row), CaughtReport(id, status, payment, upper)).tables.transactions;
            rows.Keys == {id} && OnlyNoted(row, rows[id], status, payment)
  {
    CaughtReportLeaves(c, id, row, status, payment, upper);
  }

  lemma CaughtReportLeaves(c: AuditSteps.Codec, id: Id, row: TransactionRow, status: string, payment: Option<string>,
                           upper: string)
    requires Refuses(upper, row.state)
    ensures Exec(c, OnlyTransaction(id, row), CaughtReport(id, status, payment, upper)).tables.transactions ==
            map[id := Noted(row, status, payment)]
  {
    var w := OnlyTransaction(id, row);
    var e := CaughtReport(id, status, payment, upper);
    LockThenReport(c, w, id, row, status, payment, upper);
    CommitOne(c, Apply(c, Apply(c, w, e[0]), e[1]), id, Noted(row, status, payment));
    ThreeSteps(c, w, e[0], e[1], e[2]);
  }

  lemma CommitOne(c: AuditSteps.Codec, w: World, id: Id, row: TransactionRow)
    requires w.open.Keys == {0} && w.tables.transactions.Keys == {id}
             && w.open[0].pending.transactions == map[id := row]
    ensures Apply(c, w, Event(0, Commit)).tables.transactions == map[id := row]
  {
    CommitAlone(c, w, 0);
  }

  /** A completed transaction is reported successful again: the payment it is known by changes, durably. */
  lemma CaughtReportRewritesCompleted(c: AuditSteps.Codec) returns (row: TransactionRow)
    ensures row.state == Completed && row.providerPaymentId == Some("p")
    ensures ReportRow(row, "SUCCESS", Some("q"), "SUCCESS").1 == Some(IllegalTransition)
    ensures var rows := Exec(c, OnlyTransaction("t", row),
                             CaughtReport("t", "SUCCESS", Some("q"), "SUCCESS")).tables.transactions;
            "t" in rows && rows["t"].state == Completed && rows["t"].providerPaymentId == Some("q")
  {
    row := TransactionRow(Purchase("b", "m", "n", 1, "h"), "k", Completed, Some("SUCCESS"), Some("p"));
    CaughtReportIsKept(c, "t", row, "SUCCESS", Some("q"), "SUCCESS");
  }
}
