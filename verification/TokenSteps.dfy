/** The statements of NonceRepository. */
module NonceSteps {
  import opened Outcomes
  import opened Rows
  import opened Transactions

  datatype Action =
    | Issue(nonce: string, transactionId: Id, mandateId: Id, status: NonceState, createdAt: int, refused: bool)
    | Consume(nonce: string, transactionId: Id, mandateId: Id, ttlSeconds: int, at: int)

  const MICROS := 1_000_000

  /** The nonce may be consumed for this transaction and mandate: it is theirs, unused, and younger than the ttl. */
  predicate MayConsume(r: NonceRow, tx: Id, mandate: Id, ttlSeconds: int, at: int) {
    && r.transactionId == tx && r.mandateId == mandate && r.status != CONSUMED
    && (ttlSeconds > 0 ==> at - r.createdAt < ttlSeconds * 1_000_000)
  }

  /** The checks of consume_nonce on the locked row, in the source's order. */
  function TryConsume(r: NonceRow, tx: Id, mandate: Id, ttlSeconds: int, at: int): Option<NonceRow> {
    if r.transactionId != tx || r.mandateId != mandate then None
    else if r.status == CONSUMED then None
    else if ttlSeconds > 0 && at - r.createdAt >= ttlSeconds * MICROS then None
    else Some(r.(status := CONSUMED, consumedAt := Some(at)))
  }

  /** The checks let exactly those consumptions through, and mark the row. */
  lemma ConsumesIff(r: NonceRow, tx: Id, mandate: Id, ttlSeconds: int, at: int)
    ensures TryConsume(r, tx, mandate, ttlSeconds, at) ==
            if MayConsume(r, tx, mandate, ttlSeconds, at) then Some(r.(status := CONSUMED, consumedAt := Some(at)))
            else None
  {
  }

  function Put(txn: Txn, nonce: string, row: NonceRow): Txn {
    txn.(pending := txn.pending.(nonces := txn.pending.nonces[nonce := row]))
  }

  function Effects(view: Tables, txn: Txn, held: set<Key>, a: Action): Effect {
    match a
    case Issue(n, tx, m, status, at, refused) =>
      Insert(view, held, NonceKey(n), refused, Put(txn, n, NonceRow(tx, m, status, at, None)))
    case Consume(n, tx, m, ttl, at) =>
      if NonceKey(n) !in txn.locks || n !in view.nonces then Raised(txn)
      else
        var row := TryConsume(view.nonces[n], tx, m, ttl, at);
        if row.None? then Raised(txn)
        else Next(Put(txn, n, row.value).(facts := txn.facts + [Consumed(n, tx, m, ttl, at)]))
  }

  lemma EffectsFair(view: Tables, txn: Txn, held: set<Key>, a: Action)
    ensures Fair(txn, held, Effects(view, txn, held, a))
  {
  }

  /** What issuing a nonce does to the transaction, if it is let through. */
  lemma IssueAdds(view: Tables, txn: Txn, held: set<Key>, n: string, row: NonceRow, refused: bool)
    requires row.consumedAt == None
    ensures var r := Effects(view, txn, held,
                             Issue(n, row.transactionId, row.mandateId, row.status, row.createdAt, refused));
            r.Next? ==> n !in view.nonces && r.txn == Put(txn, n, row).(locks := txn.locks + {NonceKey(n)})
  {
  }

  /** A consumption only marks the transaction, or replaces the row it saw and adds its fact. */
  lemma ConsumePuts(view: Tables, txn: Txn, held: set<Key>, a: Action)
    requires a.Consume?
    ensures var r := Effects(view, txn, held, a);
            && r.Next?
            && ((r.txn.pending == txn.pending && r.txn.facts == txn.facts)
                || (a.nonce in view.nonces
                    && var row := TryConsume(view.nonces[a.nonce], a.transactionId, a.mandateId, a.ttlSeconds, a.at);
                    && row.Some? && r.txn.pending.nonces == txn.pending.nonces[a.nonce := row.value]
                    && r.txn.facts ==
                       txn.facts + [Consumed(a.nonce, a.transactionId, a.mandateId, a.ttlSeconds, a.at)]))
  {
  }

  /** Nothing but the nonce rows and the facts changes. */
  lemma EffectsFrame(view: Tables, txn: Txn, held: set<Key>, a: Action)
    ensures var r := Effects(view, txn, held, a);
            r.Next? ==> r.txn == txn.(pending := txn.pending.(nonces := r.txn.pending.nonces),
                                      locks := r.txn.locks, facts := r.txn.facts, raised := r.txn.raised)
    ensures var r := Effects(view, txn, held, a);
            r.Next? ==> LocksNoMandate(txn, r.txn)
    ensures var r := Effects(view, txn, held, a);
            r.Next? ==> r.txn.facts == txn.facts || exists f: Fact :: f.Consumed? && r.txn.facts == txn.facts + [f]
  {
  }
}

/** The statements of ReplayRepository. */
module ReplaySteps {
  import opened Rows
  import opened Transactions

  datatype Action = RecordReplay(fingerprint: string, transactionId: Id, at: int, refused: bool)

  function Effects(view: Tables, txn: Txn, held: set<Key>, a: Action): Effect {
    var row := ReplayRow(a.transactionId, a.at);
    Insert(view, held, ReplayKey(a.fingerprint), a.refused,
           txn.(pending := txn.pending.(replays := txn.pending.replays[a.fingerprint := row]),
                facts := txn.facts + [Accepted(a.fingerprint, a.transactionId, a.at)]))
  }

  lemma EffectsFair(view: Tables, txn: Txn, held: set<Key>, a: Action)
    ensures Fair(txn, held, Effects(view, txn, held, a))
  {
  }

  /** Nothing but the replay rows and the facts changes. */
  lemma EffectsFrame(view: Tables, txn: Txn, held: set<Key>, a: Action)
    ensures var r := Effects(view, txn, held, a);
            r.Next? ==> r.txn == txn.(pending := txn.pending.(replays := r.txn.pending.replays),
                                      locks := r.txn.locks, facts := r.txn.facts)
    ensures var r := Effects(view, txn, held, a);
            r.Next? ==> LocksNoMandate(txn, r.txn)
    ensures var r := Effects(view, txn, held, a);
            r.Next? ==> exists f: Fact :: f.Accepted? && r.txn.facts == txn.facts + [f]
  {
  }
}

/** The statements of StepUpRepository. */
module ChallengeSteps {
  import opened Outcomes
  import opened Rows
  import opened Transactions

  datatype Action =
    | Open(challengeId: Id, transactionId: Id, risk: string, expiresAt: int, refused: bool)
    | Approve(challengeId: Id, metadata: string, at: int)
    | Reject(challengeId: Id, reason: string)
    | Expire(challengeId: Id)

  /** approve_challenge on the locked row: the row it flushes, and whether it then raises. */
  function ApproveRow(c: Challenge, metadata: string, at: int): (Challenge, bool) {
    if at >= c.expiresAt then (c.(status := LAPSED), true)
    else if c.status != PENDING then (c, true)
    else (c.(status := APPROVED, approvedAt := Some(at), approverMetadata := Some(metadata)), false)
  }

  function RejectRow(c: Challenge, reason: string): (Challenge, bool) {
    if c.status != PENDING then (c, true)
    else (c.(status := REJECTED, approverMetadata := Some(reason)), false)
  }

  function ExpireRow(c: Challenge): (Challenge, bool) {
    if c.status == PENDING then (c.(status := LAPSED), false) else (c, false)
  }

  function Decide(c: Challenge, a: Action): (Challenge, bool)
    requires !a.Open?
  {
    match a
    case Approve(_, metadata, at) => ApproveRow(c, metadata, at)
    case Reject(_, reason) => RejectRow(c, reason)
    case Expire(_) => ExpireRow(c)
  }

  function Put(txn: Txn, id: Id, row: Challenge): Txn {
    txn.(pending := txn.pending.(challenges := txn.pending.challenges[id := row]))
  }

  function Effects(view: Tables, txn: Txn, held: set<Key>, a: Action): Effect {
    if a.Open? then
      Insert(view, held, ChallengeKey(a.challengeId), a.refused,
             Put(txn, a.challengeId, Challenge(a.transactionId, a.risk, PENDING, a.expiresAt, None, None)))
    else if ChallengeKey(a.challengeId) !in txn.locks || a.challengeId !in view.challenges then Raised(txn)
    else
      var (row, raises) := Decide(view.challenges[a.challengeId], a);
      Next(Put(txn, a.challengeId, row).(raised := txn.raised || raises))
  }

  lemma EffectsFair(view: Tables, txn: Txn, held: set<Key>, a: Action)
    ensures Fair(txn, held, Effects(view, txn, held, a))
  {
  }

  /** Nothing but the challenge rows changes. */
  lemma EffectsFrame(view: Tables, txn: Txn, held: set<Key>, a: Action)
    ensures var r := Effects(view, txn, held, a);
            r.Next? ==> r.txn == txn.(pending := txn.pending.(challenges := r.txn.pending.challenges),
                                      locks := r.txn.locks, raised := r.txn.raised)
    ensures var r := Effects(view, txn, held, a);
            r.Next? ==> LocksNoMandate(txn, r.txn)
  {
  }
}
