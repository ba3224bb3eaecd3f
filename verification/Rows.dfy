/** Rows of the durable tables, one datatype per ORM model. */
module Rows {
  import opened Outcomes
  import TransactionStates

  type Id = string

  /** A decoded JSON document. */
  datatype Json =
    | Null
    | Bool(b: bool)
    | Number(n: int)
    | Text(s: string)
    | List(items: seq<Json>)
    | Object(fields: map<string, Json>)

  /** A Python datetime: without or with a timezone offset. */
  datatype Timestamp = Naive(local: int) | Aware(local: int, offset: int)

  datatype AuditRow = AuditRow(
    eventId: Id, sequenceNumber: int, eventType: string,
    transactionId: Option<Id>, mandateId: Option<Id>, merchantId: Option<Id>, buyerId: Option<Id>,
    payloadJson: string, previousHash: string, eventHash: string, timestamp: Timestamp)

  datatype BudgetState = AVAILABLE | RESERVED | COMMITTED | SPENT | EXPIRED | RELEASED

  datatype Reservation = Reservation(
    mandateId: Id, transactionId: Id, requestedPaise: int, reservedPaise: nat, state: BudgetState)

  datatype NonceState = ISSUED | CONSUMED | OTHER(text: string)  // a status no enumeration member names

  /** Times are counted in microseconds, as datetime does. */
  datatype NonceRow = NonceRow(
    transactionId: Id, mandateId: Id, status: NonceState, createdAt: int, consumedAt: Option<int>)

  datatype ReplayRow = ReplayRow(transactionId: Id, createdAt: int)

  datatype ChallengeStatus = PENDING | APPROVED | REJECTED | LAPSED  // LAPSED is the source's EXPIRED

  datatype Challenge = Challenge(
    transactionId: Id, riskClassification: string, status: ChallengeStatus, expiresAt: int,
    approvedAt: Option<int>, approverMetadata: Option<string>)

  /** What a transaction is about; its idempotency key is good for this and nothing else. */
  datatype Purchase = Purchase(buyerId: Id, merchantId: Id, mandateId: Id, amountPaise: int, cartHash: string)

  datatype TransactionRow = TransactionRow(
    purchase: Purchase, key: string, state: TransactionStates.State,
    providerStatus: Option<string>, providerPaymentId: Option<string>)
}

/**
  Durable tables, open transactions, and what a single statement may do to its transaction.
  Isolation is READ COMMITTED: a statement sees the durable rows overlaid with its own transaction's
  rows. A row that a transaction locked, inserted or updated belongs to it until it commits or aborts;
  a statement of another worker that needs that row waits.
 */
module Transactions {
  import opened Outcomes
  import opened Rows
  import TransactionStates

  datatype Key =
    | SeqKey(sequenceNumber: int)
    | MandateKey(id: Id)
    | ReservationKey(id: Id)
    | NonceKey(nonce: string)
    | ReplayKey(fingerprint: string)
    | ChallengeKey(id: Id)
    | TransactionKey(id: Id)
    | IdempotencyKey(key: string)  // the unique index over the keys of the transactions

  datatype Tables = Tables(
    mandates: map<Id, int>,  // mandate_id -> daily_budget_paise
    audit: map<int, AuditRow>,
    reservations: map<Id, Reservation>,
    nonces: map<string, NonceRow>,
    replays: map<string, ReplayRow>,
    challenges: map<Id, Challenge>,
    transactions: map<Id, TransactionRow>)

  const EMPTY := Tables(map[], map[], map[], map[], map[], map[], map[])

  function Overlay(base: Tables, top: Tables): Tables {
    Tables(base.mandates + top.mandates, base.audit + top.audit, base.reservations + top.reservations,
           base.nonces + top.nonces, base.replays + top.replays, base.challenges + top.challenges,
           base.transactions + top.transactions)
  }

  /** What a transaction did that may happen only once, kept for the theorems about whole runs. */
  datatype Fact =
    | Consumed(nonce: string, transactionId: Id, mandateId: Id, ttlSeconds: int, at: int)
    | Accepted(fingerprint: string, transactionId: Id, at: int)
    | Answered(key: string, transactionId: Id, purchase: Purchase)
    | Entered(transactionId: Id, state: TransactionStates.State)

  /**
    An open transaction: its flushed rows, its row locks, the last chain head it read (None before a
    read), the last reserved total it read, its facts, and whether a repository call raised inside it.
   */
  datatype Txn = Txn(
    pending: Tables, locks: set<Key>, latest: Option<Option<AuditRow>>, quote: Option<(Id, int)>,
    facts: seq<Fact>, raised: bool)

  const BEGIN := Txn(EMPTY, {}, None, None, [], false)

  /** A statement leaves the transaction in a new state, waits for a row, or fails and rolls it back. */
  datatype Effect = Next(txn: Txn) | Blocked | Failed

  function Raised(txn: Txn): Effect {
    Next(txn.(raised := true))
  }

  predicate Present(t: Tables, key: Key) {
    match key
    case SeqKey(n) => n in t.audit
    case MandateKey(id) => id in t.mandates
    case ReservationKey(id) => id in t.reservations
    case NonceKey(n) => n in t.nonces
    case ReplayKey(fp) => fp in t.replays
    case ChallengeKey(id) => id in t.challenges
    case TransactionKey(id) => id in t.transactions
    case IdempotencyKey(key) => KeyTaken(t.transactions, key)
  }

  predicate KeyTaken(rows: map<Id, TransactionRow>, key: string) {
    exists id :: id in rows && rows[id].key == key
  }

  /** SELECT ... FOR UPDATE of one row. */
  function Lock(view: Tables, txn: Txn, held: set<Key>, key: Key): Effect {
    if key in held then Blocked
    else if !Present(view, key) then Next(txn)
    else Next(txn.(locks := txn.locks + {key}))
  }

  /**
    The flush of an INSERT with primary or unique key `key`: `after` is the transaction holding the new
    row. It waits for a transaction that owns the key, and fails on a duplicate or when the database
    refuses the row for another reason (`refused`: a foreign key, another unique index, a lost connection).
   */
  function Insert(view: Tables, held: set<Key>, key: Key, refused: bool, after: Txn): Effect {
    if key in held then Blocked
    else if refused || Present(view, key) then Failed
    else Next(after.(locks := after.locks + {key}))
  }

  /** Every flushed row is owned by the transaction that flushed it. */
  ghost predicate OwnsItsRows(t: Txn) {
    && t.pending.mandates == map[]
    && (forall k <- t.pending.audit :: SeqKey(k) in t.locks)
    && (forall k <- t.pending.reservations :: ReservationKey(k) in t.locks)
    && (forall k <- t.pending.nonces :: NonceKey(k) in t.locks)
    && (forall k <- t.pending.replays :: ReplayKey(k) in t.locks)
    && (forall k <- t.pending.challenges :: ChallengeKey(k) in t.locks)
    && (forall k <- t.pending.transactions :: TransactionKey(k) in t.locks)
    && (forall k <- t.pending.transactions :: IdempotencyKey(t.pending.transactions[k].key) in t.locks)
  }

  /** The transaction keeps its locks and gains no lock on a mandate. */
  ghost predicate LocksNoMandate(before: Txn, after: Txn) {
    before.locks <= after.locks && forall k | k in after.locks && k !in before.locks :: !k.MandateKey?
  }

  /** What every statement keeps: rows stay owned, and no row of another transaction is taken. */
  ghost predicate Fair(txn: Txn, held: set<Key>, r: Effect) {
    OwnsItsRows(txn) && txn.locks !! held && r.Next? ==>
      OwnsItsRows(r.txn) && r.txn.locks !! held && txn.locks <= r.txn.locks
  }
}
