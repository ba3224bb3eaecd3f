/** How transactions get to where they are: every state entered in a run is earned by the states entered before. */
module TransactionOrigins {
  import opened Rows
  import opened Transactions
  import opened TransactionStates
  import opened TransactionSteps
  import opened Store
  import opened TransactionRuns
  import AuditSteps

  /** The state in which each transaction is created; the repository's default is AUTHORIZED. */
  type Origin = Id -> State

  /** The transaction is created in the state, or is known to have entered it. */
  predicate Earned(o: Origin, facts: seq<Fact>, id: Id, s: State) {
    s == o(id) || Entered(id, s) in facts
  }

  /** Entry i was made by a move from a state earned before it. */
  ghost predicate Stepped(o: Origin, facts: seq<Fact>, i: nat)
    requires i < |facts| && facts[i].Entered?
  {
    exists p :: CanMove(p, facts[i].state) && Earned(o, facts[..i], facts[i].transactionId, p)
  }

  ghost predicate AllStepped(o: Origin, facts: seq<Fact>, from: nat) {
    forall i: nat | from <= i < |facts| && facts[i].Entered? :: Stepped(o, facts, i)
  }

  ghost predicate AllEarned(o: Origin, facts: seq<Fact>, rows: TransactionRows) {
    forall id <- rows :: Earned(o, facts, id, rows[id].state)
  }

  /** After what the journal tells, the transaction's own entries and rows are earned. */
  ghost predicate TxnEarned(o: Origin, journal: seq<Fact>, pending: TransactionRows, facts: seq<Fact>) {
    AllEarned(o, journal + facts, pending) && AllStepped(o, journal + facts, |journal|)
  }

  ghost predicate OriginInv(o: Origin, w: World) {
    && AllEarned(o, w.journal, w.tables.transactions) && AllStepped(o, w.journal, 0)
    && forall x <- w.open :: TxnEarned(o, w.journal, w.open[x].pending.transactions, w.open[x].facts)
  }

  /** The statement creates its transaction, if any, in the state it is to be created in. */
  predicate Creates(o: Origin, a: Store.Action) {
    a.Pay? && a.pay.Insert? ==> a.pay.row.state == o(a.pay.transactionId)
  }

  // ---------------------------------------------------------------------------------------------
  // One statement
  // ---------------------------------------------------------------------------------------------

  lemma EarnedStays(o: Origin, facts: seq<Fact>, more: seq<Fact>, id: Id, s: State)
    requires Earned(o, facts, id, s)
    ensures Earned(o, facts + more, id, s)
  {
  }

  lemma SteppedStays(o: Origin, facts: seq<Fact>, more: seq<Fact>, i: nat)
    requires i < |facts| && facts[i].Entered? && Stepped(o, facts, i)
    ensures Stepped(o, facts + more, i)
  {
    var p :| CanMove(p, facts[i].state) && Earned(o, facts[..i], facts[i].transactionId, p);
    assert (facts + more)[..i] == facts[..i] && (facts + more)[i] == facts[i];
    assert Earned(o, (facts + more)[..i], facts[i].transactionId, p);
  }

  /** A fact at the end of a list earns nothing away, and an entry there has to be earned by the list. */
  lemma FactAppended(o: Origin, all: seq<Fact>, from: nat, pending: TransactionRows, f: Fact)
    requires AllEarned(o, all, pending) && AllStepped(o, all, from)
    requires f.Entered? ==> exists p :: CanMove(p, f.state) && Earned(o, all, f.transactionId, p)
    ensures AllEarned(o, all + [f], pending) && AllStepped(o, all + [f], from)
  {
    var n := |all|;
    forall id <- pending ensures Earned(o, all + [f], id, pending[id].state) {
      EarnedStays(o, all, [f], id, pending[id].state);
    }
    forall i: nat | from <= i < n + 1 && (all + [f])[i].Entered? ensures Stepped(o, all + [f], i) {
      if i < n {
        SteppedStays(o, all, [f], i);
      } else {
        assert (all + [f])[..n] == all;
      }
    }
  }

  lemma FactAdded(o: Origin, journal: seq<Fact>, pending: TransactionRows, facts: seq<Fact>, f: Fact)
    requires TxnEarned(o, journal, pending, facts)
    requires f.Entered? ==> exists p :: CanMove(p, f.state) && Earned(o, journal + facts, f.transactionId, p)
    ensures TxnEarned(o, journal, pending, facts + [f])
  {
    FactAppended(o, journal + facts, |journal|, pending, f);
    assert journal + (facts + [f]) == journal + facts + [f];
  }

  lemma RowPut(o: Origin, journal: seq<Fact>, pending: TransactionRows, facts: seq<Fact>, id: Id, row: TransactionRow)
    requires TxnEarned(o, journal, pending, facts) && Earned(o, journal + facts, id, row.state)
    ensures TxnEarned(o, journal, pending[id := row], facts)
  {
  }

  lemma InsertEarns(o: Origin, tables: Tables, txn: Txn, held: set<Key>, journal: seq<Fact>, id: Id,
                    row: TransactionRow, refused: bool)
    requires TxnEarned(o, journal, txn.pending.transactions, txn.facts) && row.state == o(id)
    ensures var r := InsertEffect(Overlay(tables, txn.pending), txn, held, id, row, refused);
            r.Next? ==> TxnEarned(o, journal, r.txn.pending.transactions, r.txn.facts)
  {
    InsertAdds(Overlay(tables, txn.pending), txn, held, id, row, refused);
    RowPut(o, journal, txn.pending.transactions, txn.facts, id, row);
    FactAdded(o, journal, txn.pending.transactions[id := row], txn.facts, Answered(row.key, id, row.purchase));
  }

  lemma ChangeMoves(r: TransactionRow, a: TransactionSteps.Action)
    requires !a.Insert? && !a.Reuse?
    ensures var after := Change(r, a).0; after.state == r.state || CanMove(r.state, after.state)
  {
  }

  lemma ChangeEarns(o: Origin, tables: Tables, txn: Txn, held: set<Key>, journal: seq<Fact>, a: TransactionSteps.Action)
    requires AllEarned(o, journal, tables.transactions)
    requires TxnEarned(o, journal, txn.pending.transactions, txn.facts) && !a.Insert? && !a.Reuse?
    ensures var r := ChangeEffect(Overlay(tables, txn.pending), txn, held, a);
            r.Next? ==> TxnEarned(o, journal, r.txn.pending.transactions, r.txn.facts)
  {
    var rows, id := tables.transactions + txn.pending.transactions, a.transactionId;
    ChangePuts(Overlay(tables, txn.pending), txn, held, a);
    if id in rows {
      var before, after := rows[id], Change(rows[id], a).0;
      ChangeMoves(before, a);
      RowSeenIsEarned(o, tables.transactions, txn.pending.transactions, journal, txn.facts, id);
      RowChanged(o, journal, txn.pending.transactions, txn.facts, id, before, after);
    }
  }

  lemma RowSeenIsEarned(o: Origin, durable: TransactionRows, pending: TransactionRows, journal: seq<Fact>,
                        facts: seq<Fact>, id: Id)
    requires AllEarned(o, journal, durable) && TxnEarned(o, journal, pending, facts) && id in durable + pending
    ensures Earned(o, journal + facts, id, (durable + pending)[id].state)
  {
    if id !in pending {
      EarnedStays(o, journal, facts, id, durable[id].state);
    }
  }

  lemma RowChanged(o: Origin, journal: seq<Fact>, pending: TransactionRows, facts: seq<Fact>, id: Id,
                   before: TransactionRow, after: TransactionRow)
    requires TxnEarned(o, journal, pending, facts) && Earned(o, journal + facts, id, before.state)
    requires after.state == before.state || CanMove(before.state, after.state)
    ensures TxnEarned(o, journal, pending[id := after], facts + Moved(before, after, id))
  {
    if after.state == before.state {
      assert facts + [] == facts;
      RowPut(o, journal, pending, facts, id, after);
    } else {
      var f := Entered(id, after.state);
      FactAdded(o, journal, pending, facts, f);
      assert f in journal + (facts + [f]);
      RowPut(o, journal, pending, facts + [f], id, after);
    }
  }

  lemma PaymentEarns(o: Origin, tables: Tables, txn: Txn, held: set<Key>, journal: seq<Fact>,
                     a: TransactionSteps.Action)
    requires AllEarned(o, journal, tables.transactions) && (a.Insert? ==> a.row.state == o(a.transactionId))
    requires TxnEarned(o, journal, txn.pending.transactions, txn.facts)
    ensures var r := TransactionSteps.Effects(Overlay(tables, txn.pending), txn, held, a);
            r.Next? ==> TxnEarned(o, journal, r.txn.pending.transactions, r.txn.facts)
  {
    match a
    case Insert(id, row, refused) => InsertEarns(o, tables, txn, held, journal, id, row, refused);
    case Reuse(id, purchase) =>
      if id in Overlay(tables, txn.pending).transactions {
        FactAdded(o, journal, txn.pending.transactions, txn.facts,
                  Answered(Overlay(tables, txn.pending).transactions[id].key, id, purchase));
      }
    case _ => ChangeEarns(o, tables, txn, held, journal, a);
  }

  lemma EffectsEarn(o: Origin, c: AuditSteps.Codec, tables: Tables, txn: Txn, held: set<Key>,
                    journal: seq<Fact>, a: Store.Action)
    requires AllEarned(o, journal, tables.transactions) && a != Commit && Creates(o, a)
    requires TxnEarned(o, journal, txn.pending.transactions, txn.facts)
    ensures var r := Store.Effects(c, tables, txn, held, a);
            r.Next? ==> TxnEarned(o, journal, r.txn.pending.transactions, r.txn.facts)
  {
    if a.Pay? {
      PaymentEarns(o, tables, txn, held, journal, a.pay);
    } else {
      Store.EffectsFrame(c, tables, txn, held, a);
      var r := Store.Effects(c, tables, txn, held, a);
      if r.Next? && r.txn.facts != txn.facts {
        var f :| Adds(a, f) && r.txn.facts == txn.facts + [f];
        FactAdded(o, journal, txn.pending.transactions, txn.facts, f);
      }
    }
  }

  // ---------------------------------------------------------------------------------------------
  // Commits and runs
  // ---------------------------------------------------------------------------------------------

  lemma CommitEarns(o: Origin, journal: seq<Fact>, durable: TransactionRows, pending: TransactionRows, facts: seq<Fact>)
    requires AllEarned(o, journal, durable) && AllStepped(o, journal, 0) && TxnEarned(o, journal, pending, facts)
    ensures AllEarned(o, journal + facts, durable + pending) && AllStepped(o, journal + facts, 0)
  {
    forall id <- durable + pending ensures Earned(o, journal + facts, id, (durable + pending)[id].state) {
      RowSeenIsEarned(o, durable, pending, journal, facts, id);
    }
    forall i: nat | i < |journal| && journal[i].Entered? ensures Stepped(o, journal + facts, i) {
      SteppedStays(o, journal, facts, i);
    }
  }

  /** Entries of other transactions that are committed in between do no harm. */
  lemma JournalGrewBefore(o: Origin, journal: seq<Fact>, mine: seq<Fact>, pending: TransactionRows, facts: seq<Fact>)
    requires TxnEarned(o, journal, pending, facts)
    ensures TxnEarned(o, journal + mine, pending, facts)
  {
    var before, after := journal + facts, journal + mine + facts;
    forall i: nat | |journal + mine| <= i < |after| && after[i].Entered? ensures Stepped(o, after, i) {
      var j := i - |mine|;
      assert before[j] == after[i] && Stepped(o, before, j);
      var p :| CanMove(p, before[j].state) && Earned(o, before[..j], before[j].transactionId, p);
      assert forall f :: f in before[..j] ==> f in after[..i] by {
        assert before[..j] == journal + facts[..j - |journal|];
        assert after[..i] == journal + mine + facts[..j - |journal|];
      }
      assert Earned(o, after[..i], after[i].transactionId, p);
    }
  }

  lemma BeginEarns(o: Origin, journal: seq<Fact>)
    ensures TxnEarned(o, journal, map[], [])
  {
    assert journal + [] == journal;
  }

  lemma ApplyEarns(o: Origin, c: AuditSteps.Codec, w: World, e: Event)
    requires OriginInv(o, w) && Creates(o, e.action)
    ensures OriginInv(o, Apply(c, w, e))
  {
    var txn := TxnOf(w, e.worker);
    BeginEarns(o, w.journal);
    if e.action == Commit {
      CommitEarns(o, w.journal, w.tables.transactions, txn.pending.transactions, txn.facts);
      forall y | y in w.open && y != e.worker
        ensures TxnEarned(o, w.journal + txn.facts, w.open[y].pending.transactions, w.open[y].facts)
      {
        JournalGrewBefore(o, w.journal, txn.facts, w.open[y].pending.transactions, w.open[y].facts);
      }
    } else {
      OneTransactionSteps(c, w, e);
      EffectsEarn(o, c, w.tables, txn, HeldByOthers(w, e.worker), w.journal, e.action);
    }
  }

  lemma {:induction false} OriginsOverRuns(o: Origin, c: AuditSteps.Codec, w: World, schedule: seq<Event>)
    requires OriginInv(o, w) && forall i | 0 <= i < |schedule| :: Creates(o, schedule[i].action)
    ensures OriginInv(o, Exec(c, w, schedule))
  {
    if schedule != [] {
      OriginsOverRuns(o, c, w, schedule[..|schedule| - 1]);
      ApplyEarns(o, c, Exec(c, w, schedule[..|schedule| - 1]), schedule[|schedule| - 1]);
    }
  }

  /** The transaction entered the state before entry i of the journal. */
  predicate EnteredBefore(facts: seq<Fact>, i: nat, id: Id, s: State)
    requires i <= |facts|
  {
    Entered(id, s) in facts[..i]
  }

  /** Before an entry into `s` comes one into a state that leads there, unless the transaction is created in one. */
  lemma Predecessor(o: Origin, facts: seq<Fact>, i: nat, id: Id, s: State) returns (j: nat, p: State)
    requires AllStepped(o, facts, 0) && i <= |facts| && EnteredBefore(facts, i, id, s)
    ensures j < i && facts[j] == Entered(id, s) && CanMove(p, s)
    ensures p == o(id) || EnteredBefore(facts, j, id, p)
  {
    j :| 0 <= j < i && facts[..i][j] == Entered(id, s);
    assert Stepped(o, facts, j);
    p :| CanMove(p, s) && Earned(o, facts[..j], id, p);
  }

  lemma ReservedIsValidated(o: Origin, facts: seq<Fact>, i: nat, id: Id) returns (validated: nat)
    requires AllStepped(o, facts, 0) && i <= |facts| && EnteredBefore(facts, i, id, UserApproved)
    requires o(id) in {Draft, Proposed}
    ensures validated < i && facts[validated] == Entered(id, Validating)
  {
    var j, p := Predecessor(o, facts, i, id, UserApproved);
    EnteredFromIff(p, UserApproved);
    j, p := Predecessor(o, facts, j, id, StepUpRequired);
    EnteredFromIff(p, StepUpRequired);
    validated, p := Predecessor(o, facts, j, id, Validating);
  }

  lemma AuthorizedIsReserved(o: Origin, facts: seq<Fact>, i: nat, id: Id) returns (reserved: nat, validated: nat)
    requires AllStepped(o, facts, 0) && i <= |facts| && EnteredBefore(facts, i, id, Reserved)
    requires o(id) in {Draft, Proposed}
    ensures validated < reserved < i
    ensures facts[reserved] == Entered(id, Reserved) && facts[validated] == Entered(id, Validating)
  {
    var p: State;
    reserved, p := Predecessor(o, facts, i, id, Reserved);
    EnteredFromIff(p, Reserved);
    if p == UserApproved {
      validated := ReservedIsValidated(o, facts, reserved, id);
    } else {
      validated, p := Predecessor(o, facts, reserved, id, Validating);
    }
  }

  lemma ExecutedIsAuthorized(o: Origin, facts: seq<Fact>, i: nat, id: Id)
    returns (authorized: nat, reserved: nat, validated: nat)
    requires AllStepped(o, facts, 0) && i <= |facts| && EnteredBefore(facts, i, id, Authorized)
    requires o(id) in {Draft, Proposed}
    ensures validated < reserved < authorized < i
    ensures facts[authorized] == Entered(id, Authorized)
    ensures facts[reserved] == Entered(id, Reserved) && facts[validated] == Entered(id, Validating)
  {
    var p: State;
    authorized, p := Predecessor(o, facts, i, id, Authorized);
    EnteredFromIff(p, Authorized);
    reserved, validated := AuthorizedIsReserved(o, facts, authorized, id);
  }

  /**
    No transaction is executed that was not authorized, over every interleaving of all workers: an entry into
    EXECUTING in the journal comes after one into AUTHORIZED, unless the transaction is created authorized. If
    it is created as a draft or a proposal, its budget was reserved before that, and it was validated before
    its budget was reserved.
   */
  lemma ExecutionIsEarned(o: Origin, c: AuditSteps.Codec, w: World, schedule: seq<Event>, i: nat, id: Id)
    requires OriginInv(o, w) && forall i | 0 <= i < |schedule| :: Creates(o, schedule[i].action)
    requires i < |Exec(c, w, schedule).journal| && Exec(c, w, schedule).journal[i] == Entered(id, Executing)
    ensures var journal := Exec(c, w, schedule).journal;
            && (o(id) == Authorized || EnteredBefore(journal, i, id, Authorized))
            && (o(id) in {Draft, Proposed} ==>
                  exists authorized, reserved, validated ::
                    && 0 <= validated < reserved < authorized < i
                    && journal[authorized] == Entered(id, Authorized)
                    && journal[reserved] == Entered(id, Reserved)
                    && journal[validated] == Entered(id, Validating))
  {
    OriginsOverRuns(o, c, w, schedule);
    var journal := Exec(c, w, schedule).journal;
    assert Stepped(o, journal, i);
    var p :| CanMove(p, Executing) && Earned(o, journal[..i], id, p);
    EnteredFromIff(p, Executing);
    if o(id) in {Draft, Proposed} {
      var authorized, reserved, validated := ExecutedIsAuthorized(o, journal, i, id);
    }
  }
}
