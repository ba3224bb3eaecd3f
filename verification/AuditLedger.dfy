/**
  verify_chain: what it accepts, and what the hash of the last event pins down.
 */
module AuditChain {
  import opened Outcomes
  import opened Rows
  import opened AuditSteps

  datatype Fault = SequenceBroken | LinkBroken | InvalidPayload | InvalidEventType | HashMismatch

  /** payload_json decoded, an empty column reading as an empty object. */
  function Decode(c: Codec, payloadJson: string): Option<Json> {
    if payloadJson == "" then Some(Object(map[])) else c.loads(payloadJson)
  }

  function AsUtc(t: Timestamp): Timestamp {
    if t.Naive? then Aware(t.local, 0) else t
  }

  /** The record that verify_chain hashes again for a stored row. */
  function Recomputed(row: AuditRow, payload: Json): Canonical {
    Canonical(row.eventId, row.eventType, AsUtc(row.timestamp), row.previousHash,
              row.transactionId, row.mandateId, row.merchantId, row.buyerId, payload)
  }

  function ExpectedPrevious(events: seq<AuditRow>, i: nat): string
    requires i <= |events|
  {
    if i == 0 then GENESIS_HASH else events[i - 1].eventHash
  }

  /** Event i passes every check of verify_chain. */
  predicate Genuine(c: Codec, events: seq<AuditRow>, i: nat)
    requires i < |events|
  {
    var e := events[i];
    && e.sequenceNumber == i + 1
    && e.previousHash == ExpectedPrevious(events, i)
    && Decode(c, e.payloadJson).Some?
    && e.eventType in c.eventTypes
    && e.eventHash == c.hash(Recomputed(e, Decode(c, e.payloadJson).value))
  }

  predicate Accepts(c: Codec, events: seq<AuditRow>) {
    forall i | 0 <= i < |events| :: Genuine(c, events, i)
  }

  /** The fault is the first check, in the source's order, that event i fails. */
  predicate FirstFault(c: Codec, events: seq<AuditRow>, i: nat, f: Fault)
    requires i < |events|
  {
    var e := events[i];
    match f
    case SequenceBroken => e.sequenceNumber != i + 1
    case LinkBroken => e.sequenceNumber == i + 1 && e.previousHash != ExpectedPrevious(events, i)
    case InvalidPayload =>
      e.sequenceNumber == i + 1 && e.previousHash == ExpectedPrevious(events, i) && Decode(c, e.payloadJson).None?
    case InvalidEventType =>
      e.sequenceNumber == i + 1 && e.previousHash == ExpectedPrevious(events, i)
      && Decode(c, e.payloadJson).Some? && e.eventType !in c.eventTypes
    case HashMismatch =>
      e.sequenceNumber == i + 1 && e.previousHash == ExpectedPrevious(events, i)
      && Decode(c, e.payloadJson).Some? && e.eventType in c.eventTypes
      && e.eventHash != c.hash(Recomputed(e, Decode(c, e.payloadJson).value))
  }

  /** The loop of verify_chain over the events in sequence order. */
  method VerifyChain(c: Codec, events: seq<AuditRow>) returns (fault: Option<(nat, Fault)>)
    ensures fault.None? <==> Accepts(c, events)
    ensures fault.Some? ==>
              && fault.value.0 < |events|
              && (forall j | 0 <= j < fault.value.0 :: Genuine(c, events, j))
              && FirstFault(c, events, fault.value.0, fault.value.1)
  {
    var expectedSeq, expectedPrevious := 1, GENESIS_HASH;
    for i := 0 to |events|
      invariant expectedSeq == i + 1
      invariant expectedPrevious == ExpectedPrevious(events, i)
      invariant forall j | 0 <= j < i :: Genuine(c, events, j)
    {
      var e := events[i];
      if e.sequenceNumber != expectedSeq {
        assert !Genuine(c, events, i);
        return Some((i, SequenceBroken));
      }
      if e.previousHash != expectedPrevious {
        assert !Genuine(c, events, i);
        return Some((i, LinkBroken));
      }
      var payload := Decode(c, e.payloadJson);
      if payload.None? {
        assert !Genuine(c, events, i);
        return Some((i, InvalidPayload));
      }
      if e.eventType !in c.eventTypes {
        assert !Genuine(c, events, i);
        return Some((i, InvalidEventType));
      }
      if e.eventHash != c.hash(Recomputed(e, payload.value)) {
        assert !Genuine(c, events, i);
        return Some((i, HashMismatch));
      }
      expectedSeq, expectedPrevious := expectedSeq + 1, e.eventHash;
    }
    return None;
  }

  // ---------------------------------------------------------------------------------------------
  // The last hash determines the ledger
  // ---------------------------------------------------------------------------------------------

  ghost predicate CollisionFree(c: Codec) {
    && (forall x, y :: c.hash(x) == c.hash(y) ==> x == y)
    && (forall x :: c.hash(x) != GENESIS_HASH)
  }

  /** Equal but for the JSON text of the payload and the timezone spelling of the timestamp. */
  predicate SameEvent(c: Codec, a: AuditRow, b: AuditRow) {
    a.(payloadJson := "", timestamp := AsUtc(a.timestamp)) == b.(payloadJson := "", timestamp := AsUtc(b.timestamp))
    && Decode(c, a.payloadJson) == Decode(c, b.payloadJson)
  }

  lemma AcceptsPrefix(c: Codec, events: seq<AuditRow>, n: nat)
    requires Accepts(c, events) && n <= |events|
    ensures Accepts(c, events[..n])
  {
    forall i | 0 <= i < n ensures Genuine(c, events[..n], i) {
      assert Genuine(c, events, i);
    }
  }

  lemma HeadIsNotGenesis(c: Codec, events: seq<AuditRow>)
    requires CollisionFree(c) && Accepts(c, events) && events != []
    ensures ExpectedPrevious(events, |events|) != GENESIS_HASH
  {
    assert Genuine(c, events, |events| - 1);
  }

  /** Two accepted ledgers with the same last hash are the same ledger. */
  lemma {:induction false} HeadDeterminesLedger(c: Codec, a: seq<AuditRow>, b: seq<AuditRow>)
    requires CollisionFree(c)
    requires Accepts(c, a) && Accepts(c, b)
    requires ExpectedPrevious(a, |a|) == ExpectedPrevious(b, |b|)
    ensures |a| == |b|
    ensures forall i | 0 <= i < |a| :: SameEvent(c, a[i], b[i])
  {
    if a != [] && b != [] {
      var m, n := |a| - 1, |b| - 1;
      assert Genuine(c, a, m) && Genuine(c, b, n);
      assert Recomputed(a[m], Decode(c, a[m].payloadJson).value) == Recomputed(b[n], Decode(c, b[n].payloadJson).value);
      AcceptsPrefix(c, a, m);
      AcceptsPrefix(c, b, n);
      HeadDeterminesLedger(c, a[..m], b[..n]);
      assert SameEvent(c, a[m], b[n]);
    } else if a != [] {
      HeadIsNotGenesis(c, a);
    } else if b != [] {
      HeadIsNotGenesis(c, b);
    }
  }

  /** A ledger that verifies and ends in a hash of the original is a prefix of the original. */
  lemma OnlyTruncationGoesUnnoticed(c: Codec, original: seq<AuditRow>, altered: seq<AuditRow>, i: nat)
    requires CollisionFree(c)
    requires Accepts(c, original) && Accepts(c, altered)
    requires altered != [] && i < |original|
    requires altered[|altered| - 1].eventHash == original[i].eventHash
    ensures |altered| == i + 1
    ensures forall j | 0 <= j <= i :: SameEvent(c, altered[j], original[j])
  {
    AcceptsPrefix(c, original, i + 1);
    HeadDeterminesLedger(c, altered, original[..i + 1]);
    forall j | 0 <= j <= i ensures SameEvent(c, altered[j], original[j]) {
      assert original[..i + 1][j] == original[j];
    }
  }
}

/**
  The ledger over every run: any number of workers, reading a head that may be stale by the time
  they insert, several appends per transaction, commits, aborts and failed flushes in any order.
 */
module AuditLedger {
  import opened Outcomes
  import opened Rows
  import opened Transactions
  import opened AuditSteps
  import opened AuditChain
  import opened Store
  import Sets

  /**
    Row n stands where it should, and was hashed from a draft whose payload text it carries; `good` is
    any property that every appended draft has.
   */
  ghost predicate Placed(c: Codec, good: Draft -> bool, rows: map<int, AuditRow>, n: int) {
    && n in rows
    && rows[n].sequenceNumber == n
    && rows[n].eventType in c.eventTypes
    && (n == 1 ==> rows[n].previousHash == GENESIS_HASH)
    && (n != 1 ==> n - 1 in rows && rows[n].previousHash == rows[n - 1].eventHash)
    && exists p :: WrittenFrom(c, rows[n], p) && good(DraftOf(rows[n], p))
  }

  /** The draft a row was appended from, given its payload. */
  function DraftOf(row: AuditRow, payload: Json): Draft {
    Draft(row.eventId, row.eventType, row.timestamp,
          row.transactionId, row.mandateId, row.merchantId, row.buyerId, payload)
  }

  ghost predicate WrittenFrom(c: Codec, row: AuditRow, payload: Json) {
    c.dumps(payload) == Some(row.payloadJson)
      && row.eventHash == c.hash(Record(DraftOf(row, payload), row.previousHash))
  }

  /** Contiguous 1..k, linked from the genesis hash. */
  ghost predicate Chain(c: Codec, good: Draft -> bool, rows: map<int, AuditRow>, k: nat) {
    && (forall n :: n in rows <==> 1 <= n <= k)
    && (forall n {:trigger Placed(c, good, rows, n)} | 1 <= n <= k :: Placed(c, good, rows, n))
  }

  ghost predicate Chained(c: Codec, good: Draft -> bool, rows: map<int, AuditRow>) {
    exists k: nat :: Chain(c, good, rows, k)
  }

  /** The head a transaction remembers is still a row it can see. */
  ghost predicate Seen(view: map<int, AuditRow>, latest: Option<AuditRow>) {
    latest.Some? ==> latest.value.sequenceNumber in view && view[latest.value.sequenceNumber] == latest.value
  }

  /** A transaction's flushed rows are new and its view is a chain. */
  ghost predicate Extends(c: Codec, good: Draft -> bool, durable: map<int, AuditRow>, pending: map<int, AuditRow>,
                          latest: Option<Option<AuditRow>>) {
    && Chained(c, good, durable + pending)
    && pending.Keys !! durable.Keys
    && (latest.Some? ==> Seen(durable + pending, latest.value))
  }

  ghost predicate TxnChained(c: Codec, good: Draft -> bool, tables: Tables, txn: Txn) {
    Extends(c, good, tables.audit, txn.pending.audit, txn.latest)
  }

  /** If the action appends, it appends a good draft. */
  predicate AppendsOnly(good: Draft -> bool, a: Store.Action) {
    a.Audit? && a.audit.Append? ==> good(a.audit.draft)
  }

  ghost predicate LedgerInv(c: Codec, good: Draft -> bool, w: World) {
    && Chained(c, good, w.tables.audit)
    && (forall x <- w.open :: TxnChained(c, good, w.tables, w.open[x]))
  }

  /** A row built on a remembered head whose number is still free stands right after the last row. */
  lemma NextRowChains(c: Codec, good: Draft -> bool, view: map<int, AuditRow>, d: Draft, latest: Option<AuditRow>,
                      payloadJson: string)
    requires Chained(c, good, view) && Seen(view, latest)
    requires good(d) && d.eventType in c.eventTypes && c.dumps(d.payload) == Some(payloadJson)
    requires NextRow(c, d, latest, payloadJson).sequenceNumber !in view
    ensures var row := NextRow(c, d, latest, payloadJson); Chained(c, good, view[row.sequenceNumber := row])
  {
    var row := NextRow(c, d, latest, payloadJson);
    var k: nat :| Chain(c, good, view, k);
    assert latest.Some? ==> Placed(c, good, view, latest.value.sequenceNumber);
    assert row.sequenceNumber == k + 1;
    var view' := view[k + 1 := row];
    assert DraftOf(row, d.payload) == d;
    assert WrittenFrom(c, row, d.payload);
    forall n | 1 <= n <= k + 1 ensures Placed(c, good, view', n) {
      if n != k + 1 {
        assert Placed(c, good, view, n);
      }
    }
    assert Chain(c, good, view', k + 1);
  }

  lemma InsertExtends(c: Codec, good: Draft -> bool, durable: map<int, AuditRow>, pending: map<int, AuditRow>,
                      latest: Option<Option<AuditRow>>, d: Draft, payloadJson: string)
    requires Extends(c, good, durable, pending, latest) && latest.Some?
    requires good(d) && d.eventType in c.eventTypes && c.dumps(d.payload) == Some(payloadJson)
    requires NextRow(c, d, latest.value, payloadJson).sequenceNumber !in durable + pending
    ensures var row := NextRow(c, d, latest.value, payloadJson);
            Extends(c, good, durable, pending[row.sequenceNumber := row], latest)
  {
    var row := NextRow(c, d, latest.value, payloadJson);
    NextRowChains(c, good, durable + pending, d, latest.value, payloadJson);
    assert durable + pending[row.sequenceNumber := row] == (durable + pending)[row.sequenceNumber := row];
  }

  /** An append that the database lets through extends its transaction's view by one linked row. */
  lemma AppendChains(c: Codec, good: Draft -> bool, tables: Tables, txn: Txn, held: set<Key>, a: AuditSteps.Action)
    requires TxnChained(c, good, tables, txn) && a.Append? && good(a.draft)
    ensures var r := AuditSteps.Effects(c, Overlay(tables, txn.pending), txn, held, a);
            r.Next? ==> TxnChained(c, good, tables, r.txn)
  {
    var json := c.dumps(a.draft.payload);
    if a.draft.eventType in c.eventTypes && txn.latest.Some? && json.Some? {
      var row := NextRow(c, a.draft, txn.latest.value, json.value);
      if row.sequenceNumber !in tables.audit + txn.pending.audit {
        InsertExtends(c, good, tables.audit, txn.pending.audit, txn.latest, a.draft, json.value);
      }
    }
  }

  lemma EffectsChain(c: Codec, good: Draft -> bool, tables: Tables, txn: Txn, held: set<Key>, a: Store.Action)
    requires TxnChained(c, good, tables, txn) && a != Commit && AppendsOnly(good, a)
    ensures var r := Store.Effects(c, tables, txn, held, a); r.Next? ==> TxnChained(c, good, tables, r.txn)
  {
    if !a.Audit? {
      Store.EffectsFrame(c, tables, txn, held, a);
    } else if a.audit.Append? {
      AppendChains(c, good, tables, txn, held, a.audit);
    } else {
      var view := Overlay(tables, txn.pending).audit;
      var k: nat :| Chain(c, good, view, k);
      forall n | n in view ensures view[n].sequenceNumber == n {
        assert Placed(c, good, view, n);
      }
    }
  }

  /** Two transactions with flushed appends would both own the row after the durable head. */
  lemma OneAppender(c: Codec, good: Draft -> bool, tables: Tables, a: Txn, b: Txn)
    requires Chained(c, good, tables.audit) && TxnChained(c, good, tables, a) && TxnChained(c, good, tables, b)
    requires OwnsItsRows(a) && OwnsItsRows(b) && a.locks !! b.locks
    ensures a.pending.audit == map[] || b.pending.audit == map[]
  {
    var k: nat :| Chain(c, good, tables.audit, k);
    forall t | (t == a || t == b) && t.pending.audit != map[] ensures SeqKey(k + 1) in t.locks {
      var j: nat :| Chain(c, good, tables.audit + t.pending.audit, j);
      var n := Sets.NonEmpty(t.pending.audit.Keys);
      assert n in tables.audit + t.pending.audit;
      assert n > k && k + 1 <= j;
      assert k + 1 in tables.audit + t.pending.audit;
    }
  }

  lemma CommitKeepsOthers(c: Codec, good: Draft -> bool, tables: Tables, mine: Txn, other: Txn)
    requires Chained(c, good, tables.audit) && TxnChained(c, good, tables, mine) && TxnChained(c, good, tables, other)
    requires OwnsItsRows(mine) && OwnsItsRows(other) && mine.locks !! other.locks
    ensures TxnChained(c, good, Overlay(tables, mine.pending), other)
  {
    OneAppender(c, good, tables, mine, other);
    var after := tables.audit + mine.pending.audit;
    if mine.pending.audit == map[] {
      assert after == tables.audit;
    } else {
      assert after + other.pending.audit == after;
      assert tables.audit + other.pending.audit == tables.audit;
    }
  }

  lemma CommitChains(c: Codec, good: Draft -> bool, w: World, e: Event)
    requires Isolated(w) && LedgerInv(c, good, w) && e.action == Commit
    ensures LedgerInv(c, good, Apply(c, w, e))
  {
    var txn := TxnOf(w, e.worker);
    assert w.tables.audit + map[] == w.tables.audit;
    forall y | y in w.open && y != e.worker ensures TxnChained(c, good, Apply(c, w, e).tables, w.open[y]) {
      CommitKeepsOthers(c, good, w.tables, txn, w.open[y]);
    }
  }

  lemma BeginIsChained(c: Codec, good: Draft -> bool, tables: Tables)
    requires Chained(c, good, tables.audit)
    ensures TxnChained(c, good, tables, BEGIN)
  {
    assert tables.audit + map[] == tables.audit;
  }

  lemma ApplyLedger(c: Codec, good: Draft -> bool, w: World, e: Event)
    requires Isolated(w) && LedgerInv(c, good, w) && AppendsOnly(good, e.action)
    ensures LedgerInv(c, good, Apply(c, w, e))
  {
    var txn := TxnOf(w, e.worker);
    if e.action == Commit {
      CommitChains(c, good, w, e);
    } else {
      BeginIsChained(c, good, w.tables);
      EffectsChain(c, good, w.tables, txn, HeldByOthers(w, e.worker), e.action);
    }
  }

  /** Every reachable committed ledger is contiguous and linked, and so is every open transaction's view. */
  lemma {:induction false} LedgerOverRuns(c: Codec, good: Draft -> bool, w: World, schedule: seq<Event>)
    requires Quiet(w) && Chained(c, good, w.tables.audit)
    requires forall i | 0 <= i < |schedule| :: AppendsOnly(good, schedule[i].action)
    ensures LedgerInv(c, good, Exec(c, w, schedule))
  {
    if schedule != [] {
      var before := schedule[..|schedule| - 1];
      LedgerOverRuns(c, good, w, before);
      ExecIsolated(c, w, before);
      ApplyLedger(c, good, Exec(c, w, before), schedule[|schedule| - 1]);
    }
  }

  lemma ApplyAppends(c: Codec, good: Draft -> bool, w: World, e: Event)
    requires LedgerInv(c, good, w)
    ensures var after := Apply(c, w, e).tables.audit;
            forall n <- w.tables.audit :: n in after && after[n] == w.tables.audit[n]
  {
    if e.action == Commit {
      BeginIsChained(c, good, w.tables);
      assert TxnChained(c, good, w.tables, TxnOf(w, e.worker));
    } else {
      OnlyCommitWrites(c, w, e);
    }
  }

  /** The committed ledger is append-only: from any point of any run on, no durable event changes or disappears. */
  lemma {:induction false} LedgerIsAppendOnly(c: Codec, good: Draft -> bool, w: World, schedule: seq<Event>)
    requires Isolated(w) && LedgerInv(c, good, w)
    requires forall i | 0 <= i < |schedule| :: AppendsOnly(good, schedule[i].action)
    ensures Isolated(Exec(c, w, schedule)) && LedgerInv(c, good, Exec(c, w, schedule))
    ensures var after := Exec(c, w, schedule).tables.audit;
            forall n <- w.tables.audit :: n in after && after[n] == w.tables.audit[n]
  {
    if schedule != [] {
      var before, last := schedule[..|schedule| - 1], schedule[|schedule| - 1];
      LedgerIsAppendOnly(c, good, w, before);
      ApplyIsolated(c, Exec(c, w, before), last);
      ApplyLedger(c, good, Exec(c, w, before), last);
      ApplyAppends(c, good, Exec(c, w, before), last);
    }
  }

  // ---------------------------------------------------------------------------------------------
  // When verify_chain accepts what the appends wrote
  // ---------------------------------------------------------------------------------------------

  /** get_all_events: the rows in sequence order, with timestamps as the database hands them back. */
  function AllEvents(c: Codec, rows: map<int, AuditRow>, k: nat): (events: seq<AuditRow>)
    requires forall n | 1 <= n <= k :: n in rows
    ensures |events| == k
  {
    seq(k, i requires 0 <= i < k => rows[i + 1].(timestamp := c.loadTime(rows[i + 1].timestamp)))
  }

  /**
    The payload and the timestamp of the draft come back from the database unchanged: no text reads as an empty
    object, and a time without an offset as one in UTC.
   */
  predicate StorageSafe(c: Codec, d: Draft) {
    && c.dumps(d.payload).Some?
    && (var text := c.dumps(d.payload).value;
        if text == "" then d.payload == Object(map[]) else c.loads(text) == Some(d.payload))
    && (var t := c.loadTime(d.timestamp);
        if t.Naive? then d.timestamp == Aware(t.local, 0) else d.timestamp == t)
  }

  function Safe(c: Codec): Draft -> bool {
    (d: Draft) => StorageSafe(c, d)
  }

  lemma SafeRowIsGenuine(c: Codec, good: Draft -> bool, rows: map<int, AuditRow>, k: nat, i: nat, p: Json)
    requires Chain(c, good, rows, k) && i < k
    requires WrittenFrom(c, rows[i + 1], p) && StorageSafe(c, DraftOf(rows[i + 1], p))
    ensures Genuine(c, AllEvents(c, rows, k), i)
  {
    assert Placed(c, good, rows, i + 1);
    var e := AllEvents(c, rows, k)[i];
    assert Recomputed(e, p) == Record(DraftOf(rows[i + 1], p), rows[i + 1].previousHash);
  }

  lemma SafeChainIsAccepted(c: Codec, rows: map<int, AuditRow>, k: nat)
    requires Chain(c, Safe(c), rows, k)
    ensures Accepts(c, AllEvents(c, rows, k))
  {
    forall i | 0 <= i < k ensures Genuine(c, AllEvents(c, rows, k), i) {
      assert Placed(c, Safe(c), rows, i + 1);
      var p :| WrittenFrom(c, rows[i + 1], p) && Safe(c)(DraftOf(rows[i + 1], p));
      SafeRowIsGenuine(c, Safe(c), rows, k, i, p);
    }
  }

  /** If every appended draft is storage safe, verify_chain accepts every reachable committed ledger. */
  lemma {:induction false} VerifyAcceptsEveryRun(c: Codec, w: World, schedule: seq<Event>) returns (k: nat)
    requires Quiet(w) && w.tables.audit == map[]
    requires forall i | 0 <= i < |schedule| :: AppendsOnly(Safe(c), schedule[i].action)
    ensures Chain(c, Safe(c), Exec(c, w, schedule).tables.audit, k)
    ensures Accepts(c, AllEvents(c, Exec(c, w, schedule).tables.audit, k))
  {
    assert Chain(c, Safe(c), w.tables.audit, 0);
    LedgerOverRuns(c, Safe(c), w, schedule);
    k :| Chain(c, Safe(c), Exec(c, w, schedule).tables.audit, k);
    SafeChainIsAccepted(c, Exec(c, w, schedule).tables.audit, k);
  }

  /** Under a collision-free hash that is exact: one unsafe draft in the ledger and verify_chain rejects it. */
  lemma VerifyAcceptsIff(c: Codec, good: Draft -> bool, rows: map<int, AuditRow>, k: nat)
    requires CollisionFree(c) && Chain(c, good, rows, k)
    ensures Accepts(c, AllEvents(c, rows, k)) <==>
            forall n, p | 1 <= n <= k && WrittenFrom(c, rows[n], p) :: StorageSafe(c, DraftOf(rows[n], p))
  {
    var events := AllEvents(c, rows, k);
    if Accepts(c, events) {
      forall n, p | 1 <= n <= k && WrittenFrom(c, rows[n], p) ensures StorageSafe(c, DraftOf(rows[n], p)) {
        assert Genuine(c, events, n - 1);
        assert Recomputed(events[n - 1], Decode(c, rows[n].payloadJson).value)
            == Record(DraftOf(rows[n], p), rows[n].previousHash);
      }
    }
    if forall n, p | 1 <= n <= k && WrittenFrom(c, rows[n], p) :: StorageSafe(c, DraftOf(rows[n], p)) {
      forall i | 0 <= i < k ensures Genuine(c, events, i) {
        assert Placed(c, good, rows, i + 1);
        var p :| WrittenFrom(c, rows[i + 1], p);
        SafeRowIsGenuine(c, good, rows, k, i, p);
      }
    }
  }

  /** A timestamp without an offset is read back with one, so a ledger holding such an event is rejected. */
  lemma NaiveTimestampIsRejected(c: Codec, good: Draft -> bool, rows: map<int, AuditRow>, k: nat, n: int)
    requires CollisionFree(c) && Chain(c, good, rows, k)
    requires 1 <= n <= k && rows[n].timestamp.Naive?
    ensures !Accepts(c, AllEvents(c, rows, k))
  {
    VerifyAcceptsIff(c, good, rows, k);
    assert Placed(c, good, rows, n);
    var p :| WrittenFrom(c, rows[n], p);
    assert !StorageSafe(c, DraftOf(rows[n], p));
  }

  /** Reading the empty ledger, appending and committing leaves a ledger of this one event. */
  lemma FirstAppend(c: Codec, d: Draft, w: World)
    requires w == World(EMPTY, map[], []) && d.eventType in c.eventTypes && c.dumps(d.payload).Some?
    ensures Exec(c, w, FirstAppendSchedule(d)).tables.audit == map[1 := NextRow(c, d, None, c.dumps(d.payload).value)]
  {
    var t1 := BEGIN.(latest := Some(None));
    var row := NextRow(c, d, None, c.dumps(d.payload).value);
    var t2 := t1.(pending := EMPTY.(audit := map[1 := row]), locks := {SeqKey(1)});
    assert Overlay(EMPTY, EMPTY) == EMPTY;
    StepAlone(c, w, 0, Audit(ReadLatest), t1);
    StepAlone(c, World(EMPTY, map[0 := t1], []), 0, Audit(Append(d, false)), t2);
    CommitAlone(c, World(EMPTY, map[0 := t2], []), 0);
    ThreeSteps(c, w, Event(0, Audit(ReadLatest)), Event(0, Audit(Append(d, false))), Event(0, Commit));
  }

  function FirstAppendSchedule(d: Draft): seq<Event> {
    [Event(0, Audit(ReadLatest)), Event(0, Audit(Append(d, false))), Event(0, Commit)]
  }

  /** One event appended with a timestamp that has no offset, committed, and verify_chain rejects the ledger. */
  lemma NaiveAppendIsRejected(c: Codec, d: Draft, w: World)
    requires CollisionFree(c) && w == World(EMPTY, map[], [])
    requires d.timestamp.Naive? && d.eventType in c.eventTypes && c.dumps(d.payload).Some?
    ensures var rows := Exec(c, w, FirstAppendSchedule(d)).tables.audit;
            rows.Keys == {1} && rows[1].timestamp == d.timestamp && !Accepts(c, AllEvents(c, rows, 1))
  {
    FirstAppend(c, d, w);
    var row := NextRow(c, d, None, c.dumps(d.payload).value);
    var rows := map[1 := row];
    assert DraftOf(row, d.payload) == d && WrittenFrom(c, row, d.payload);
    var any: Draft -> bool := _ => true;
    assert Placed(c, any, rows, 1);
    NaiveTimestampIsRejected(c, any, rows, 1, 1);
  }
}
