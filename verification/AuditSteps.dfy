/** The statements of AuditRepository. */
module AuditSteps {
  import opened Outcomes
  import opened Rows
  import opened Transactions
  import Sets

  /** The record whose canonical JSON text is hashed. */
  datatype Canonical = Canonical(
    eventId: Id, eventType: string, timestamp: Timestamp, previousHash: string,
    transactionId: Option<Id>, mandateId: Option<Id>, merchantId: Option<Id>, buyerId: Option<Id>,
    payload: Json)

  /**
    What the ledger code calls but does not define: the event hash, the JSON codec, what the database
    hands back for a stored timestamp, and the enumeration of event types.
   */
  datatype Codec = Codec(
    hash: Canonical -> string,
    dumps: Json -> Option<string>,
    loads: string -> Option<Json>,
    loadTime: Timestamp -> Timestamp,
    eventTypes: set<string>)

  const GENESIS_HASH := "0000000000000000000000000000000000000000000000000000000000000000"

  /** The arguments of one append, before it is given a place in the chain. */
  datatype Draft = Draft(
    eventId: Id, eventType: string, timestamp: Timestamp,
    transactionId: Option<Id>, mandateId: Option<Id>, merchantId: Option<Id>, buyerId: Option<Id>,
    payload: Json)

  datatype Action =
    | ReadLatest
    | Append(draft: Draft, refused: bool)

  /** The canonical record of a draft placed after a given hash. */
  function Record(d: Draft, previousHash: string): Canonical {
    Canonical(d.eventId, d.eventType, d.timestamp, previousHash,
              d.transactionId, d.mandateId, d.merchantId, d.buyerId, d.payload)
  }

  function NextRow(c: Codec, d: Draft, latest: Option<AuditRow>, payloadJson: string): AuditRow {
    var seqNo := if latest.None? then 1 else latest.value.sequenceNumber + 1;
    var prev := if latest.None? then GENESIS_HASH else latest.value.eventHash;
    AuditRow(d.eventId, seqNo, d.eventType, d.transactionId, d.mandateId, d.merchantId, d.buyerId,
             payloadJson, prev, c.hash(Record(d, prev)), d.timestamp)
  }

  /** ORDER BY sequence_number DESC LIMIT 1. */
  ghost predicate IsLatest(rows: map<int, AuditRow>, latest: Option<AuditRow>) {
    match latest
    case None => rows == map[]
    case Some(row) => exists k <- rows :: rows[k] == row && forall j <- rows :: j <= k
  }

  ghost function Latest(rows: map<int, AuditRow>): (r: Option<AuditRow>)
    ensures IsLatest(rows, r)
  {
    if rows == map[] then None
    else
      Sets.MaxExists(rows.Keys);
      var k :| k in rows && forall j <- rows :: j <= k;
      Some(rows[k])
  }

  lemma LatestIsUnique(rows: map<int, AuditRow>, latest: Option<AuditRow>)
    requires IsLatest(rows, latest)
    ensures latest == Latest(rows)
  {
    if latest.Some? {
      var k :| k in rows && rows[k] == latest.value && forall j <- rows :: j <= k;
      assert IsLatest(rows, Latest(rows));
      var m :| m in rows && rows[m] == Latest(rows).value && forall j <- rows :: j <= m;
      assert k <= m && m <= k;
    }
  }

  function AppendEffect(c: Codec, view: Tables, txn: Txn, held: set<Key>, d: Draft, refused: bool): Effect {
    var payloadJson := c.dumps(d.payload);
    if d.eventType !in c.eventTypes || txn.latest.None? || payloadJson.None? then Raised(txn)
    else
      var row := NextRow(c, d, txn.latest.value, payloadJson.value);
      Insert(view, held, SeqKey(row.sequenceNumber), refused,
             txn.(pending := txn.pending.(audit := txn.pending.audit[row.sequenceNumber := row])))
  }

  ghost function Effects(c: Codec, view: Tables, txn: Txn, held: set<Key>, a: Action): Effect {
    match a
    case ReadLatest => Next(txn.(latest := Some(Latest(view.audit))))
    case Append(d, refused) => AppendEffect(c, view, txn, held, d, refused)
  }

  lemma EffectsFair(c: Codec, view: Tables, txn: Txn, held: set<Key>, a: Action)
    ensures Fair(txn, held, Effects(c, view, txn, held, a))
  {
  }

  /** Nothing but the audit rows and the remembered head changes. */
  lemma EffectsFrame(c: Codec, view: Tables, txn: Txn, held: set<Key>, a: Action)
    ensures var r := Effects(c, view, txn, held, a);
            r.Next? ==> r.txn == txn.(pending := txn.pending.(audit := r.txn.pending.audit),
                                      locks := r.txn.locks, latest := r.txn.latest, raised := r.txn.raised)
    ensures var r := Effects(c, view, txn, held, a);
            r.Next? ==> LocksNoMandate(txn, r.txn)
  {
  }
}
