/** Single use of nonces over every run. */
module NonceRuns {
  import opened Outcomes
  import opened Rows
  import opened Transactions
  import opened NonceSteps
  import opened Store
  import AuditSteps

  /** The consumption was allowed by the row it left behind. */
  predicate Matches(f: Fact, r: NonceRow)
    requires f.Consumed?
  {
    && r.status == CONSUMED
    && r.consumedAt == Some(f.at)
    && r.transactionId == f.transactionId && r.mandateId == f.mandateId
    && (f.ttlSeconds > 0 ==> f.at - r.createdAt < f.ttlSeconds * 1_000_000)
  }

  /** No nonce is consumed twice in the list, and each consumption matches its row. */
  ghost predicate SingleUse(facts: seq<Fact>, rows: map<string, NonceRow>) {
    && (forall i | 0 <= i < |facts| && facts[i].Consumed? ::
        facts[i].nonce in rows && Matches(facts[i], rows[facts[i].nonce]))
    && (forall i, j | 0 <= i < j < |facts| && facts[i].Consumed? && facts[j].Consumed? ::
        facts[i].nonce != facts[j].nonce)
  }

  /** The same nonce, unchanged or consumed once. */
  predicate Later(a: NonceRow, b: NonceRow) {
    b == a || (a.status != CONSUMED && b.status == CONSUMED && b.consumedAt.Some?
               && b == a.(status := CONSUMED, consumedAt := b.consumedAt))
  }

  /** Flushed nonce rows are new or consume a durable row that was not consumed yet. */
  ghost predicate TxnSingleUse(durable: map<string, NonceRow>, pending: map<string, NonceRow>, facts: seq<Fact>) {
    && SingleUse(facts, pending)
    && (forall n <- pending :: n in durable ==> durable[n].status != CONSUMED && Later(durable[n], pending[n]))
  }

  ghost predicate NonceInv(w: World) {
    && SingleUse(w.journal, w.tables.nonces)
    && (forall x <- w.open :: TxnSingleUse(w.tables.nonces, w.open[x].pending.nonces, w.open[x].facts))
  }

  lemma IssueKeeps(durable: map<string, NonceRow>, pending: map<string, NonceRow>, facts: seq<Fact>, n: string,
                   row: NonceRow)
    requires TxnSingleUse(durable, pending, facts) && n !in durable + pending
    ensures TxnSingleUse(durable, pending[n := row], facts)
  {
  }

  lemma ConsumeKeeps(durable: map<string, NonceRow>, pending: map<string, NonceRow>, facts: seq<Fact>,
                     n: string, tx: Id, m: Id, ttl: int, at: int)
    requires TxnSingleUse(durable, pending, facts) && n in durable + pending
    requires TryConsume((durable + pending)[n], tx, m, ttl, at).Some?
    ensures TxnSingleUse(durable, pending[n := TryConsume((durable + pending)[n], tx, m, ttl, at).value],
                         facts + [Consumed(n, tx, m, ttl, at)])
  {
    forall i | 0 <= i < |facts| && facts[i].Consumed? ensures facts[i].nonce != n {
      assert Matches(facts[i], pending[facts[i].nonce]);
    }
  }

  lemma FactsOfOthersKeep(durable: map<string, NonceRow>, pending: map<string, NonceRow>, facts: seq<Fact>, f: Fact)
    requires TxnSingleUse(durable, pending, facts) && !f.Consumed?
    ensures TxnSingleUse(durable, pending, facts + [f])
  {
  }

  lemma IssueStep(tables: Tables, txn: Txn, held: set<Key>, a: NonceSteps.Action)
    requires TxnSingleUse(tables.nonces, txn.pending.nonces, txn.facts) && a.Issue?
    ensures var r := NonceSteps.Effects(Overlay(tables, txn.pending), txn, held, a);
            r.Next? ==> TxnSingleUse(tables.nonces, r.txn.pending.nonces, r.txn.facts)
  {
    var row := NonceRow(a.transactionId, a.mandateId, a.status, a.createdAt, None);
    IssueAdds(Overlay(tables, txn.pending), txn, held, a.nonce, row, a.refused);
    var r := NonceSteps.Effects(Overlay(tables, txn.pending), txn, held, a);
    if r.Next? {
      assert r.txn.pending.nonces == txn.pending.nonces[a.nonce := row] && r.txn.facts == txn.facts;
      IssueKeeps(tables.nonces, txn.pending.nonces, txn.facts, a.nonce, row);
    }
  }

  lemma ConsumeStep(tables: Tables, txn: Txn, held: set<Key>, a: NonceSteps.Action)
    requires TxnSingleUse(tables.nonces, txn.pending.nonces, txn.facts) && a.Consume?
    ensures var r := NonceSteps.Effects(Overlay(tables, txn.pending), txn, held, a);
            r.Next? ==> TxnSingleUse(tables.nonces, r.txn.pending.nonces, r.txn.facts)
  {
    ConsumePuts(Overlay(tables, txn.pending), txn, held, a);
    var r := NonceSteps.Effects(Overlay(tables, txn.pending), txn, held, a);
    if r.txn.facts != txn.facts {
      ConsumeKeeps(tables.nonces, txn.pending.nonces, txn.facts, a.nonce, a.transactionId, a.mandateId, a.ttlSeconds,
                   a.at);
    }
  }

  lemma NonceStepSingleUse(tables: Tables, txn: Txn, held: set<Key>, a: NonceSteps.Action)
    requires TxnSingleUse(tables.nonces, txn.pending.nonces, txn.facts)
    ensures var r := NonceSteps.Effects(Overlay(tables, txn.pending), txn, held, a);
            r.Next? ==> TxnSingleUse(tables.nonces, r.txn.pending.nonces, r.txn.facts)
  {
    if a.Issue? {
      IssueStep(tables, txn, held, a);
    } else {
      ConsumeStep(tables, txn, held, a);
    }
  }

  lemma EffectsSingleUse(c: AuditSteps.Codec, tables: Tables, txn: Txn, held: set<Key>, a: Store.Action)
    requires TxnSingleUse(tables.nonces, txn.pending.nonces, txn.facts) && a != Commit
    ensures var r := Store.Effects(c, tables, txn, held, a);
            r.Next? ==> TxnSingleUse(tables.nonces, r.txn.pending.nonces, r.txn.facts)
  {
    if a.Nonce? {
      NonceStepSingleUse(tables, txn, held, a.nonce);
    } else {
      Store.EffectsFrame(c, tables, txn, held, a);
      var r := Store.Effects(c, tables, txn, held, a);
      if r.Next? && r.txn.facts != txn.facts {
        var f :| Adds(a, f) && r.txn.facts == txn.facts + [f];
        FactsOfOthersKeep(tables.nonces, txn.pending.nonces, txn.facts, f);
      }
    }
  }

  lemma JournalGrows(durable: map<string, NonceRow>, pending: map<string, NonceRow>, journal: seq<Fact>,
                     facts: seq<Fact>)
    requires SingleUse(journal, durable) && TxnSingleUse(durable, pending, facts)
    ensures SingleUse(journal + facts, durable + pending)
    ensures forall n <- durable :: Later(durable[n], (durable + pending)[n])
  {
    forall i | 0 <= i < |journal| && journal[i].Consumed? ensures journal[i].nonce !in pending {
      assert Matches(journal[i], durable[journal[i].nonce]);
    }
  }

  lemma CommitKeepsOthers(tables: Tables, mine: Txn, other: Txn)
    requires TxnSingleUse(tables.nonces, other.pending.nonces, other.facts)
    requires OwnsItsRows(mine) && OwnsItsRows(other) && mine.locks !! other.locks
    ensures TxnSingleUse(tables.nonces + mine.pending.nonces, other.pending.nonces, other.facts)
  {
    forall n <- other.pending.nonces ensures n !in mine.pending.nonces {
      assert NonceKey(n) in other.locks;
    }
  }

  lemma CommitSingleUse(c: AuditSteps.Codec, w: World, e: Event)
    requires Isolated(w) && NonceInv(w) && e.action == Commit
    ensures NonceInv(Apply(c, w, e))
    ensures var after := Apply(c, w, e).tables.nonces;
            forall n <- w.tables.nonces :: n in after && Later(w.tables.nonces[n], after[n])
  {
    var txn := TxnOf(w, e.worker);
    JournalGrows(w.tables.nonces, txn.pending.nonces, w.journal, txn.facts);
    forall y | y in w.open && y != e.worker
      ensures TxnSingleUse(Apply(c, w, e).tables.nonces, w.open[y].pending.nonces, w.open[y].facts)
    {
      CommitKeepsOthers(w.tables, txn, w.open[y]);
    }
  }

  lemma ApplySingleUse(c: AuditSteps.Codec, w: World, e: Event)
    requires Isolated(w) && NonceInv(w)
    ensures NonceInv(Apply(c, w, e))
    ensures var after := Apply(c, w, e).tables.nonces;
            forall n <- w.tables.nonces :: n in after && Later(w.tables.nonces[n], after[n])
  {
    if e.action == Commit {
      CommitSingleUse(c, w, e);
    } else {
      StepSingleUse(c, w, e);
    }
  }

  lemma StepSingleUse(c: AuditSteps.Codec, w: World, e: Event)
    requires NonceInv(w) && e.action != Commit
    ensures NonceInv(Apply(c, w, e)) && Apply(c, w, e).tables == w.tables
  {
    OneTransactionSteps(c, w, e);
    EffectsSingleUse(c, w.tables, TxnOf(w, e.worker), HeldByOthers(w, e.worker), e.action);
  }

  /**
    Over every run each nonce has at most one committed consumption, for the transaction and mandate it
    was issued to and younger than the ttl passed; and a durable nonce is only ever consumed once.
   */
  lemma {:induction false} SingleUseOverRuns(c: AuditSteps.Codec, w: World, schedule: seq<Event>)
    requires Isolated(w) && NonceInv(w)
    ensures Isolated(Exec(c, w, schedule)) && NonceInv(Exec(c, w, schedule))
    ensures var after := Exec(c, w, schedule).tables.nonces;
            forall n <- w.tables.nonces :: n in after && Later(w.tables.nonces[n], after[n])
  {
    if schedule != [] {
      var before := schedule[..|schedule| - 1];
      SingleUseOverRuns(c, w, before);
      ApplyIsolated(c, Exec(c, w, before), schedule[|schedule| - 1]);
      ApplySingleUse(c, Exec(c, w, before), schedule[|schedule| - 1]);
    }
  }

  /** From a quiet database, any nonces already present. */
  lemma AtMostOneConsumption(c: AuditSteps.Codec, w: World, schedule: seq<Event>, i: nat, j: nat)
    requires Quiet(w)
    requires i < j < |Exec(c, w, schedule).journal|
    requires Exec(c, w, schedule).journal[i].Consumed? && Exec(c, w, schedule).journal[j].Consumed?
    ensures Exec(c, w, schedule).journal[i].nonce != Exec(c, w, schedule).journal[j].nonce
  {
    SingleUseOverRuns(c, w, schedule);
  }

  /** The world after `y` locks a nonce, consumes it and commits. */
  ghost function Consuming(c: AuditSteps.Codec, w: World, y: Worker, f: Fact): World
    requires f.Consumed?
  {
    var locked := Apply(c, w, Event(y, LockRow(NonceKey(f.nonce))));
    var consumed := Apply(c, locked,
                          Event(y, Nonce(Consume(f.nonce, f.transactionId, f.mandateId, f.ttlSeconds, f.at))));
    Apply(c, consumed, Event(y, Commit))
  }

  /** The durable row would pass the checks of this consumption. */
  predicate Consumable(rows: map<string, NonceRow>, f: Fact)
    requires f.Consumed?
  {
    f.nonce in rows && MayConsume(rows[f.nonce], f.transactionId, f.mandateId, f.ttlSeconds, f.at)
  }

  /** A worker without a transaction consumes an unowned nonce that passes the checks. */
  lemma ConsumeAlone(c: AuditSteps.Codec, w: World, y: Worker, f: Fact)
    requires f.Consumed? && y !in w.open && NonceKey(f.nonce) !in HeldByOthers(w, y) && Consumable(w.tables.nonces, f)
    ensures Consuming(c, w, y, f).journal == w.journal + [f]
    ensures f.nonce in Consuming(c, w, y, f).tables.nonces
            && Consuming(c, w, y, f).tables.nonces[f.nonce].status == CONSUMED
  {
    var w1 := Apply(c, w, Event(y, LockRow(NonceKey(f.nonce))));
    assert TxnOf(w1, y) == BEGIN.(locks := {NonceKey(f.nonce)});
    assert (w1.tables.nonces + map[])[f.nonce] == w.tables.nonces[f.nonce];
    var w2 := Apply(c, w1, Event(y, Nonce(Consume(f.nonce, f.transactionId, f.mandateId, f.ttlSeconds, f.at))));
    assert TxnOf(w2, y).facts == [f];
  }

  lemma AbortFrees(c: AuditSteps.Codec, w: World, x: Worker, key: Key)
    requires Isolated(w) && x in w.open && key in w.open[x].locks
    ensures var w1 := Apply(c, w, Event(x, Abort));
            w1 == w.(open := w.open - {x}) && forall y :: key !in HeldByOthers(w1, y)
  {
  }

  /** A consumption that is rolled back leaves the nonce consumable, by the same worker or another. */
  lemma RolledBackIsConsumable(c: AuditSteps.Codec, w: World, x: Worker, y: Worker, f: Fact)
    requires f.Consumed? && Isolated(w) && Consumable(w.tables.nonces, f)
    requires x in w.open && NonceKey(f.nonce) in w.open[x].locks && (y == x || y !in w.open)
    ensures var w1 := Apply(c, w, Event(x, Abort));
            && w1.tables == w.tables && w1.journal == w.journal
            && Consuming(c, w1, y, f).journal == w.journal + [f]
  {
    AbortFrees(c, w, x, NonceKey(f.nonce));
    ConsumeAlone(c, w.(open := w.open - {x}), y, f);
  }
}

/** One acceptance per replay fingerprint over every run. */
module ReplayRuns {
  import opened Rows
  import opened Transactions
  import opened ReplaySteps
  import opened Store
  import AuditSteps

  ghost predicate AcceptedOnce(facts: seq<Fact>, rows: map<string, ReplayRow>) {
    && (forall i | 0 <= i < |facts| && facts[i].Accepted? ::
          facts[i].fingerprint in rows && rows[facts[i].fingerprint] == ReplayRow(facts[i].transactionId, facts[i].at))
    && (forall i, j | 0 <= i < j < |facts| && facts[i].Accepted? && facts[j].Accepted? ::
          facts[i].fingerprint != facts[j].fingerprint)
  }

  ghost predicate TxnAcceptedOnce(durable: map<string, ReplayRow>, pending: map<string, ReplayRow>, facts: seq<Fact>) {
    AcceptedOnce(facts, pending) && pending.Keys !! durable.Keys
  }

  ghost predicate ReplayInv(w: World) {
    && AcceptedOnce(w.journal, w.tables.replays)
    && (forall x <- w.open :: TxnAcceptedOnce(w.tables.replays, w.open[x].pending.replays, w.open[x].facts))
  }

  lemma RecordKeeps(durable: map<string, ReplayRow>, pending: map<string, ReplayRow>, facts: seq<Fact>, fp: string,
                    tx: Id, at: int)
    requires TxnAcceptedOnce(durable, pending, facts) && fp !in durable + pending
    ensures TxnAcceptedOnce(durable, pending[fp := ReplayRow(tx, at)], facts + [Accepted(fp, tx, at)])
  {
  }

  lemma ReplayStepAcceptsOnce(tables: Tables, txn: Txn, held: set<Key>, a: ReplaySteps.Action)
    requires TxnAcceptedOnce(tables.replays, txn.pending.replays, txn.facts)
    ensures var r := ReplaySteps.Effects(Overlay(tables, txn.pending), txn, held, a);
            r.Next? ==> TxnAcceptedOnce(tables.replays, r.txn.pending.replays, r.txn.facts)
  {
    if a.fingerprint !in tables.replays + txn.pending.replays {
      RecordKeeps(tables.replays, txn.pending.replays, txn.facts, a.fingerprint, a.transactionId, a.at);
    }
  }

  lemma FactsOfOthersKeep(durable: map<string, ReplayRow>, pending: map<string, ReplayRow>, facts: seq<Fact>, f: Fact)
    requires TxnAcceptedOnce(durable, pending, facts) && !f.Accepted?
    ensures TxnAcceptedOnce(durable, pending, facts + [f])
  {
  }

  lemma EffectsAcceptOnce(c: AuditSteps.Codec, tables: Tables, txn: Txn, held: set<Key>, a: Store.Action)
    requires TxnAcceptedOnce(tables.replays, txn.pending.replays, txn.facts) && a != Commit
    ensures var r := Store.Effects(c, tables, txn, held, a);
            r.Next? ==> TxnAcceptedOnce(tables.replays, r.txn.pending.replays, r.txn.facts)
  {
    if a.Replay? {
      ReplayStepAcceptsOnce(tables, txn, held, a.replay);
    } else {
      Store.EffectsFrame(c, tables, txn, held, a);
      var r := Store.Effects(c, tables, txn, held, a);
      if r.Next? && r.txn.facts != txn.facts {
        var f :| Adds(a, f) && r.txn.facts == txn.facts + [f];
        FactsOfOthersKeep(tables.replays, txn.pending.replays, txn.facts, f);
      }
    }
  }

  lemma CommitKeepsOthers(tables: Tables, mine: Txn, other: Txn)
    requires TxnAcceptedOnce(tables.replays, other.pending.replays, other.facts)
    requires OwnsItsRows(mine) && OwnsItsRows(other) && mine.locks !! other.locks
    ensures TxnAcceptedOnce(tables.replays + mine.pending.replays, other.pending.replays, other.facts)
  {
    forall fp <- other.pending.replays ensures fp !in mine.pending.replays {
      assert ReplayKey(fp) in other.locks;
    }
  }

  lemma CommitAcceptsOnce(c: AuditSteps.Codec, w: World, e: Event)
    requires Isolated(w) && ReplayInv(w) && e.action == Commit
    ensures ReplayInv(Apply(c, w, e))
    ensures var after := Apply(c, w, e).tables.replays;
            forall fp <- w.tables.replays :: fp in after && after[fp] == w.tables.replays[fp]
  {
    var txn := TxnOf(w, e.worker);
    forall y | y in w.open && y != e.worker
      ensures TxnAcceptedOnce(Apply(c, w, e).tables.replays, w.open[y].pending.replays, w.open[y].facts)
    {
      CommitKeepsOthers(w.tables, txn, w.open[y]);
    }
  }

  lemma ApplyAcceptsOnce(c: AuditSteps.Codec, w: World, e: Event)
    requires Isolated(w) && ReplayInv(w)
    ensures ReplayInv(Apply(c, w, e))
    ensures var after := Apply(c, w, e).tables.replays;
            forall fp <- w.tables.replays :: fp in after && after[fp] == w.tables.replays[fp]
  {
    if e.action == Commit {
      CommitAcceptsOnce(c, w, e);
    } else {
      StepAcceptsOnce(c, w, e);
    }
  }

  lemma StepAcceptsOnce(c: AuditSteps.Codec, w: World, e: Event)
    requires ReplayInv(w) && e.action != Commit
    ensures ReplayInv(Apply(c, w, e)) && Apply(c, w, e).tables == w.tables
  {
    OneTransactionSteps(c, w, e);
    EffectsAcceptOnce(c, w.tables, TxnOf(w, e.worker), HeldByOthers(w, e.worker), e.action);
  }

  /** Over every run a fingerprint is accepted at most once, and a durable replay row never changes. */
  lemma {:induction false} AcceptedOnceOverRuns(c: AuditSteps.Codec, w: World, schedule: seq<Event>)
    requires Isolated(w) && ReplayInv(w)
    ensures Isolated(Exec(c, w, schedule)) && ReplayInv(Exec(c, w, schedule))
    ensures var after := Exec(c, w, schedule).tables.replays;
            forall fp <- w.tables.replays :: fp in after && after[fp] == w.tables.replays[fp]
  {
    if schedule != [] {
      var before := schedule[..|schedule| - 1];
      AcceptedOnceOverRuns(c, w, before);
      ApplyIsolated(c, Exec(c, w, before), schedule[|schedule| - 1]);
      ApplyAcceptsOnce(c, Exec(c, w, before), schedule[|schedule| - 1]);
    }
  }

  /** From a quiet database, any rows already present: no fingerprint is accepted twice, whatever the ttl. */
  lemma AcceptedAtMostOnce(c: AuditSteps.Codec, w: World, schedule: seq<Event>, i: nat, j: nat)
    requires Quiet(w)
    requires i < j < |Exec(c, w, schedule).journal|
    requires Exec(c, w, schedule).journal[i].Accepted? && Exec(c, w, schedule).journal[j].Accepted?
    ensures Exec(c, w, schedule).journal[i].fingerprint != Exec(c, w, schedule).journal[j].fingerprint
  {
    AcceptedOnceOverRuns(c, w, schedule);
  }
}

/** Decisions on durable step-up challenges over every run. */
module ChallengeRuns {
  import opened Outcomes
  import opened Rows
  import opened Transactions
  import opened ChallengeSteps
  import opened Store
  import AuditSteps

  /** Unchanged, or a pending challenge decided once. */
  predicate Evolves(a: Challenge, b: Challenge) {
    b == a || (a.status == PENDING && b.status != PENDING
               && b.transactionId == a.transactionId && b.riskClassification == a.riskClassification
                  && b.expiresAt == a.expiresAt)
  }

  /** An approval was given before the challenge expired. */
  predicate ApprovedInTime(c: Challenge) {
    c.status == APPROVED ==> c.approvedAt.Some? && c.approvedAt.value < c.expiresAt
  }

  ghost predicate AllInTime(rows: map<Id, Challenge>) {
    forall id <- rows :: ApprovedInTime(rows[id])
  }

  /** As long as no call raised in it, a transaction's rows are decided at most once. */
  ghost predicate DecidesOnce(durable: map<Id, Challenge>, pending: map<Id, Challenge>) {
    AllInTime(pending) && forall id <- pending :: id in durable ==> Evolves(durable[id], pending[id])
  }

  ghost predicate TxnDecidesOnce(durable: map<Id, Challenge>, txn: Txn) {
    !txn.raised ==> DecidesOnce(durable, txn.pending.challenges)
  }

  ghost predicate ChallengeInv(w: World) {
    && AllInTime(w.tables.challenges)
    && (forall x <- w.open :: TxnDecidesOnce(w.tables.challenges, w.open[x]))
  }

  /** A decision that does not raise moves only a pending challenge, and approves it only in time. */
  lemma DecideEvolves(c: Challenge, a: ChallengeSteps.Action)
    requires !a.Open? && ApprovedInTime(c)
    ensures var (row, raises) := Decide(c, a); !raises ==> Evolves(c, row) && ApprovedInTime(row)
  {
  }

  lemma PutDecidesOnce(durable: map<Id, Challenge>, pending: map<Id, Challenge>, id: Id, row: Challenge)
    requires DecidesOnce(durable, pending) && ApprovedInTime(row)
    requires id in durable + pending ==> Evolves((durable + pending)[id], row)
    ensures DecidesOnce(durable, pending[id := row])
  {
  }

  lemma ChallengeStepDecidesOnce(tables: Tables, txn: Txn, held: set<Key>, a: ChallengeSteps.Action)
    requires TxnDecidesOnce(tables.challenges, txn) && AllInTime(tables.challenges)
    ensures var r := ChallengeSteps.Effects(Overlay(tables, txn.pending), txn, held, a);
            r.Next? ==> TxnDecidesOnce(tables.challenges, r.txn)
  {
    var rows := Overlay(tables, txn.pending).challenges;
    if !txn.raised {
      if a.Open? {
        if a.challengeId !in rows {
          PutDecidesOnce(tables.challenges, txn.pending.challenges, a.challengeId,
                         Challenge(a.transactionId, a.risk, PENDING, a.expiresAt, None, None));
        }
      } else if a.challengeId in rows {
        var (row, raises) := Decide(rows[a.challengeId], a);
        DecideEvolves(rows[a.challengeId], a);
        if !raises {
          PutDecidesOnce(tables.challenges, txn.pending.challenges, a.challengeId, row);
        }
      }
    }
  }

  lemma EffectsDecideOnce(c: AuditSteps.Codec, tables: Tables, txn: Txn, held: set<Key>, a: Store.Action)
    requires TxnDecidesOnce(tables.challenges, txn) && AllInTime(tables.challenges) && a != Commit
    ensures var r := Store.Effects(c, tables, txn, held, a); r.Next? ==> TxnDecidesOnce(tables.challenges, r.txn)
  {
    if a.StepUp? {
      ChallengeStepDecidesOnce(tables, txn, held, a.stepUp);
    } else {
      Store.EffectsFrame(c, tables, txn, held, a);
    }
  }

  lemma CommitKeepsOthers(tables: Tables, mine: Txn, other: Txn)
    requires TxnDecidesOnce(tables.challenges, other)
    requires OwnsItsRows(mine) && OwnsItsRows(other) && mine.locks !! other.locks
    ensures TxnDecidesOnce(tables.challenges + mine.pending.challenges, other)
  {
    forall id <- other.pending.challenges ensures id !in mine.pending.challenges {
      assert ChallengeKey(id) in other.locks;
    }
  }

  /** The unit of work never commits a transaction in which a repository call raised. */
  ghost predicate Disciplined(c: AuditSteps.Codec, w: World, schedule: seq<Event>) {
    forall i | 0 <= i < |schedule| && schedule[i].action == Commit ::
      !TxnOf(Exec(c, w, schedule[..i]), schedule[i].worker).raised
  }

  lemma CommitDecidesOnce(c: AuditSteps.Codec, w: World, e: Event)
    requires Isolated(w) && ChallengeInv(w) && e.action == Commit && !TxnOf(w, e.worker).raised
    ensures ChallengeInv(Apply(c, w, e))
    ensures var after := Apply(c, w, e).tables.challenges;
            forall id <- w.tables.challenges :: id in after && Evolves(w.tables.challenges[id], after[id])
  {
    forall y | y in w.open && y != e.worker ensures TxnDecidesOnce(Apply(c, w, e).tables.challenges, w.open[y]) {
      CommitKeepsOthers(w.tables, TxnOf(w, e.worker), w.open[y]);
    }
  }

  lemma ApplyDecidesOnce(c: AuditSteps.Codec, w: World, e: Event)
    requires Isolated(w) && ChallengeInv(w)
    requires e.action == Commit ==> !TxnOf(w, e.worker).raised
    ensures ChallengeInv(Apply(c, w, e))
    ensures var after := Apply(c, w, e).tables.challenges;
            forall id <- w.tables.challenges :: id in after && Evolves(w.tables.challenges[id], after[id])
  {
    if e.action == Commit {
      CommitDecidesOnce(c, w, e);
    } else {
      StepDecidesOnce(c, w, e);
    }
  }

  lemma StepDecidesOnce(c: AuditSteps.Codec, w: World, e: Event)
    requires ChallengeInv(w) && e.action != Commit
    ensures ChallengeInv(Apply(c, w, e)) && Apply(c, w, e).tables == w.tables
  {
    OneTransactionSteps(c, w, e);
    EffectsDecideOnce(c, w.tables, TxnOf(w, e.worker), HeldByOthers(w, e.worker), e.action);
  }

  /** Over every disciplined run a durable challenge leaves PENDING at most once and is approved only in time. */
  lemma {:induction false} DecidedOnceOverRuns(c: AuditSteps.Codec, w: World, schedule: seq<Event>)
    requires Isolated(w) && ChallengeInv(w) && Disciplined(c, w, schedule)
    ensures Isolated(Exec(c, w, schedule)) && ChallengeInv(Exec(c, w, schedule))
    ensures var after := Exec(c, w, schedule).tables.challenges;
            forall id <- w.tables.challenges :: id in after && Evolves(w.tables.challenges[id], after[id])
  {
    if schedule != [] {
      var before := schedule[..|schedule| - 1];
      forall i | 0 <= i < |before| ensures before[..i] == schedule[..i] {
      }
      DecidedOnceOverRuns(c, w, before);
      ApplyIsolated(c, Exec(c, w, before), schedule[|schedule| - 1]);
      ApplyDecidesOnce(c, Exec(c, w, before), schedule[|schedule| - 1]);
    }
  }

  // The EXPIRED that approve_challenge writes before it raises.

  predicate NotLapsed(rows: map<Id, Challenge>, id: Id) {
    id in rows ==> rows[id].status != LAPSED
  }

  ghost predicate NeverLapsed(w: World, id: Id) {
    && NotLapsed(w.tables.challenges, id)
    && (forall x <- w.open :: !w.open[x].raised ==> NotLapsed(w.open[x].pending.challenges, id))
  }

  predicate Expires(a: Store.Action, id: Id) {
    a.StepUp? && a.stepUp.Expire? && a.stepUp.challengeId == id
  }

  lemma ChallengeStepLapsesNot(tables: Tables, txn: Txn, held: set<Key>, a: ChallengeSteps.Action, id: Id)
    requires NotLapsed(tables.challenges, id) && (!txn.raised ==> NotLapsed(txn.pending.challenges, id))
    requires !(a.Expire? && a.challengeId == id)
    ensures var r := ChallengeSteps.Effects(Overlay(tables, txn.pending), txn, held, a);
            r.Next? && !r.txn.raised ==> NotLapsed(r.txn.pending.challenges, id)
  {
  }

  lemma EffectsLapseNot(c: AuditSteps.Codec, tables: Tables, txn: Txn, held: set<Key>, a: Store.Action, id: Id)
    requires NotLapsed(tables.challenges, id) && (!txn.raised ==> NotLapsed(txn.pending.challenges, id))
    requires a != Commit && !Expires(a, id)
    ensures var r := Store.Effects(c, tables, txn, held, a);
            r.Next? && !r.txn.raised ==> NotLapsed(r.txn.pending.challenges, id)
  {
    if a.StepUp? {
      ChallengeStepLapsesNot(tables, txn, held, a.stepUp, id);
    } else {
      Store.EffectsFrame(c, tables, txn, held, a);
    }
  }

  lemma ApplyLapsesNot(c: AuditSteps.Codec, w: World, e: Event, id: Id)
    requires NeverLapsed(w, id) && !Expires(e.action, id)
    requires e.action == Commit ==> !TxnOf(w, e.worker).raised
    ensures NeverLapsed(Apply(c, w, e), id)
  {
    if e.action != Commit {
      EffectsLapseNot(c, w.tables, TxnOf(w, e.worker), HeldByOthers(w, e.worker), e.action, id);
    }
  }

  /**
    An approval that comes too late is documented to move the challenge to EXPIRED. Under the discipline of
    the unit of work it never does so durably: only expire_challenge can.
   */
  lemma {:induction false} LateApprovalNeverExpires(c: AuditSteps.Codec, w: World, schedule: seq<Event>, id: Id)
    requires NeverLapsed(w, id) && Disciplined(c, w, schedule)
    requires forall i | 0 <= i < |schedule| :: !Expires(schedule[i].action, id)
    ensures NeverLapsed(Exec(c, w, schedule), id)
  {
    if schedule != [] {
      var before := schedule[..|schedule| - 1];
      forall i | 0 <= i < |before| ensures before[..i] == schedule[..i] {
      }
      LateApprovalNeverExpires(c, w, before, id);
      ApplyLapsesNot(c, Exec(c, w, before), schedule[|schedule| - 1], id);
    }
  }

  /** approve_challenge leaves a decided row alone exactly when its first guard does not fire or changes nothing. */
  lemma ApproveKeepsDecidedIff(c: Challenge, metadata: string, at: int)
    requires c.status != PENDING
    ensures ApproveRow(c, metadata, at).0 == c <==> at < c.expiresAt || c.status == LAPSED
    ensures ApproveRow(c, metadata, at).1
  {
  }

  /** Swallowing the error and committing does overwrite an approval: the discipline cannot be dropped. */
  lemma SwallowedErrorOverwritesApproval(c: AuditSteps.Codec) returns (w: World, schedule: seq<Event>)
    ensures Quiet(w) && ChallengeInv(w) && "ch1" in w.tables.challenges && w.tables.challenges["ch1"].status == APPROVED
    ensures var after := Exec(c, w, schedule).tables.challenges; "ch1" in after && after["ch1"].status == LAPSED
  {
    var row := Challenge("tx1", "HIGH", APPROVED, 100, Some(50), Some("u1"));
    var tables := EMPTY.(challenges := map["ch1" := row]);
    w := World(tables, map[], []);
    var lock, approve := LockRow(ChallengeKey("ch1")), StepUp(Approve("ch1", "m", 200));
    schedule := [Event(0, lock), Event(0, approve), Event(0, Commit)];
    var t1 := BEGIN.(locks := {ChallengeKey("ch1")});
    assert Overlay(tables, EMPTY) == tables;
    StepAlone(c, w, 0, lock, t1);
    var w1 := World(tables, map[0 := t1], []);
    var t2 := ChallengeSteps.Put(t1, "ch1", row.(status := LAPSED)).(raised := true);
    StepAlone(c, w1, 0, approve, t2);
    CommitAlone(c, World(tables, map[0 := t2], []), 0);
    ThreeSteps(c, w, schedule[0], schedule[1], schedule[2]);
  }
}
