/** Errors that reach the caller of a repository method. */
module Failures {
  import opened Transactions
  import opened Store

  /** `EncodingError` is whatever json.dumps raises, `DatabaseError` a statement that had to wait and failed. */
  datatype Failure = ValueError | TransactionStateError | EncodingError | IntegrityError | DatabaseError

  /** After an error the transaction is gone, or marked and otherwise as it was, locks aside. */
  ghost predicate Spoiled(before: World, after: World, me: Worker) {
    var t0, t := TxnOf(before, me), TxnOf(after, me);
    me !in after.open || (t.raised && t.pending == t0.pending && t.facts == t0.facts && t0.locks <= t.locks)
  }
}

module NonceRepositories {
  import opened Outcomes
  import opened Rows
  import opened Transactions
  import opened NonceSteps
  import opened Store
  import opened Databases
  import opened Failures
  import Text

  class NonceRepository {
    const db: Database
    const me: Worker

    constructor (db: Database, me: Worker)
      ensures this.db == db && this.me == me
    {
      this.db := db;
      this.me := me;
    }

    /** A statement on nonces, sent after yielding. */
    method Send(b: NonceSteps.Action) returns (reply: Reply, ghost seen: World)
      requires db.Valid()
      modifies db
      ensures db.Valid() && old(db.log) <= db.log && db.Reached(old(db.log), seen)
      ensures StandsFor(seen, old(db.world), me)
      ensures db.Met(seen, me, NonceSteps.Effects(View(seen, me), TxnOf(seen, me), HeldByOthers(seen, me), b), reply)
    {
      reply, seen := db.Send(me, Nonce(b));
    }

    method InsertRow(nonce: string, row: NonceRow) returns (reply: Reply)
      requires db.Valid() && row.consumedAt == None
      modifies db
      ensures db.Valid() && old(db.log) <= db.log
      ensures reply == Done ==> Issued(old(db.world), db.world, me, nonce, row)
      ensures reply != Done ==> me !in db.world.open
      ensures reply == Waiting ==> db.Contended(old(db.log), me, NonceKey(nonce))
    {
      var refused: bool := *;
      ghost var seen: World;
      reply, seen := Send(Issue(nonce, row.transactionId, row.mandateId, row.status, row.createdAt, refused));
      IssueAdds(View(seen, me), TxnOf(seen, me), HeldByOthers(seen, me), nonce, row, refused);
    }

    /** create_nonce on the stripped arguments. */
    method CreateNonce(nonce: string, transactionId: string, mandateId: string, status: NonceState, createdAt: int)
      returns (r: Result<NonceRow, Failure>)
      requires db.Valid()
      modifies db
      ensures db.Valid() && old(db.log) <= db.log
      ensures Text.Blank(nonce) || Text.Blank(transactionId) || Text.Blank(mandateId) ==> r == Err(ValueError)
      ensures r.Ok? ==> r.value == NonceRow(Text.Strip(transactionId), Text.Strip(mandateId), status, createdAt, None)
      ensures r.Ok? ==> Issued(old(db.world), db.world, me, Text.Strip(nonce), r.value)
      ensures r.Err? ==>
                me !in db.world.open
                  || (r.error == ValueError
                      && (Text.Blank(nonce) || Text.Blank(transactionId) || Text.Blank(mandateId)))
      ensures r.Err? && r.error != ValueError ==>
                r.error == DatabaseError && db.Contended(old(db.log), me, NonceKey(Text.Strip(nonce)))
      ensures r.Err? ==> Spoiled(old(db.world), db.world, me)
    {
      if Text.Blank(nonce) || Text.Blank(transactionId) || Text.Blank(mandateId) {
        db.Fail(me);
        return Err(ValueError);
      }
      var row := NonceRow(Text.Strip(transactionId), Text.Strip(mandateId), status, createdAt, None);
      var reply := InsertRow(Text.Strip(nonce), row);
      match reply {
        case Done => r := Ok(row);
        case Waiting => r := Err(DatabaseError);
        case RolledBack => r := Err(ValueError);
      }
    }

    /** consume_nonce: an error on the row that was locked, or the row consumed in the caller's transaction. */
    method ConsumeNonce(nonce: string, transactionId: string, mandateId: string, ttlSeconds: int, at: int)
      returns (r: Result<NonceRow, Failure>)
      requires db.Valid()
      modifies db
      ensures db.Valid() && old(db.log) <= db.log
      ensures r.Ok? ==> Consumes(old(db.world), db.world, me, Request(nonce, transactionId, mandateId, ttlSeconds, at),
                                 r.value)
      ensures r == Err(ValueError) ==>
                Text.Blank(nonce) || Refused(old(db.world), db.world, me,
                                             Request(nonce, transactionId, mandateId, ttlSeconds, at))
      ensures r.Err? && r.error != ValueError ==>
                r.error == DatabaseError && db.Contended(old(db.log), me, NonceKey(Text.Strip(nonce)))
      ensures r.Err? ==> Spoiled(old(db.world), db.world, me)
    {
      if Text.Blank(nonce) {
        db.Fail(me);
        return Err(ValueError);
      }
      var f := Request(nonce, transactionId, mandateId, ttlSeconds, at);
      var locked := db.LockForUpdate(me, NonceKey(f.nonce));
      if !locked {
        return Err(DatabaseError);
      }
      var rows := View(db.world, me).nonces;
      if f.nonce !in rows {
        db.Fail(me);
        return Err(ValueError);
      }
      ConsumesIff(rows[f.nonce], f.transactionId, f.mandateId, ttlSeconds, at);
      var checked := TryConsume(rows[f.nonce], f.transactionId, f.mandateId, ttlSeconds, at);
      if checked.None? {
        db.Fail(me);
        return Err(ValueError);
      }
      Mark(f);
      return Ok(checked.value);
    }

    /** The UPDATE of a row that is locked, and so still the one that was checked. */
    method Mark(f: Fact)
      requires db.Valid() && f.Consumed? && NonceKey(f.nonce) in TxnOf(db.world, me).locks
      requires f.nonce in View(db.world, me).nonces && Fits(View(db.world, me).nonces[f.nonce], f)
      modifies db
      ensures db.Valid() && old(db.log) <= db.log
      ensures Consumes(old(db.world), db.world, me, f,
                       View(old(db.world), me).nonces[f.nonce].(status := CONSUMED, consumedAt := Some(f.at)))
    {
      ghost var rows, tables := View(db.world, me).nonces, db.world.tables;
      ConsumesIff(rows[f.nonce], f.transactionId, f.mandateId, f.ttlSeconds, f.at);
      var reply, seen := Send(Consume(f.nonce, f.transactionId, f.mandateId, f.ttlSeconds, f.at));
      assert SameRow(tables, seen.tables, NonceKey(f.nonce));
      assert View(seen, me).nonces[f.nonce] == rows[f.nonce];
    }
  }

  function Request(nonce: string, transactionId: string, mandateId: string, ttlSeconds: int, at: int): (f: Fact)
    ensures f.Consumed?
  {
    Consumed(Text.Strip(nonce), Text.Strip(transactionId), Text.Strip(mandateId), ttlSeconds, at)
  }

  /** The row may be consumed as requested. */
  predicate Fits(row: NonceRow, f: Fact)
    requires f.Consumed?
  {
    MayConsume(row, f.transactionId, f.mandateId, f.ttlSeconds, f.at)
  }

  /** `me` inserted a nonce that neither the database nor its own transaction had. */
  ghost predicate Issued(before: World, after: World, me: Worker, nonce: string, row: NonceRow) {
    var t := TxnOf(before, me);
    && nonce !in Overlay(after.tables, t.pending).nonces
    && TxnOf(after, me) == Put(t, nonce, row).(locks := t.locks + {NonceKey(nonce)})
  }

  /** `me` consumed the row it saw, which passed every check, and nothing else of its transaction changed. */
  ghost predicate Consumes(before: World, after: World, me: Worker, f: Fact, row: NonceRow)
    requires f.Consumed?
  {
    var t := TxnOf(before, me);
    var rows := Overlay(after.tables, t.pending).nonces;
    && f.nonce in rows && Fits(rows[f.nonce], f) && row == rows[f.nonce].(status := CONSUMED, consumedAt := Some(f.at))
    && TxnOf(after, me) == Put(t, f.nonce, row).(locks := t.locks + {NonceKey(f.nonce)}, facts := t.facts + [f])
  }

  ghost predicate Refused(before: World, after: World, me: Worker, f: Fact)
    requires f.Consumed?
  {
    var rows := Overlay(after.tables, TxnOf(before, me).pending).nonces;
    f.nonce !in rows || !Fits(rows[f.nonce], f)
  }
}

module ReplayRepositories {
  import opened Outcomes
  import opened Rows
  import opened Transactions
  import opened ReplaySteps
  import opened Store
  import opened Databases
  import opened Failures
  import ReplayRuns
  import NonceSteps
  import Text

  class ReplayRepository {
    const db: Database
    const me: Worker

    constructor (db: Database, me: Worker)
      ensures this.db == db && this.me == me
    {
      this.db := db;
      this.me := me;
    }

    method Send(b: ReplaySteps.Action) returns (reply: Reply, ghost seen: World)
      requires db.Valid()
      modifies db
      ensures db.Valid() && old(db.log) <= db.log && db.Reached(old(db.log), seen)
      ensures TxnOf(seen, me) == TxnOf(old(db.world), me)
      ensures db.Met(seen, me, ReplaySteps.Effects(View(seen, me), TxnOf(seen, me), HeldByOthers(seen, me), b), reply)
    {
      reply, seen := db.Send(me, Replay(b));
    }

    method InsertRow(fingerprint: string, row: ReplayRow) returns (reply: Reply)
      requires db.Valid()
      modifies db
      ensures db.Valid() && old(db.log) <= db.log
      ensures reply == Done ==> Recorded(old(db.world), db.world, me, fingerprint, row)
      ensures reply != Done ==> me !in db.world.open
      ensures reply == Waiting ==> db.Contended(old(db.log), me, ReplayKey(fingerprint))
      ensures fingerprint in View(old(db.world), me).replays ==> reply != Done
    {
      ghost var before, log0 := db.world, db.log;
      var refused: bool := *;
      ghost var seen: World;
      reply, seen := Send(RecordReplay(fingerprint, row.transactionId, row.createdAt, refused));
      SeenBefore(db, log0, TxnOf(before, me), fingerprint);
      RecordAdds(View(seen, me), TxnOf(seen, me), HeldByOthers(seen, me), fingerprint, row, refused);
    }

    method RecordReplayFingerprint(fingerprint: string, transactionId: string, createdAt: int)
      returns (r: Result<ReplayRow, Failure>)
      requires db.Valid()
      modifies db
      ensures db.Valid() && old(db.log) <= db.log
      ensures Text.Blank(fingerprint) || Text.Blank(transactionId) ==> r == Err(ValueError)
      ensures r.Ok? ==> Recorded(old(db.world), db.world, me, Text.Strip(fingerprint), r.value)
      ensures r.Ok? ==> r.value == ReplayRow(Text.Strip(transactionId), createdAt)
      ensures Text.Strip(fingerprint) in View(old(db.world), me).replays ==> r.Err?
      ensures r.Err? ==>
                || me !in db.world.open
                || (r.error == ValueError && (Text.Blank(fingerprint) || Text.Blank(transactionId)))
      ensures r.Err? && r.error != ValueError ==>
                r.error == DatabaseError && db.Contended(old(db.log), me, ReplayKey(Text.Strip(fingerprint)))
      ensures r.Err? ==> Spoiled(old(db.world), db.world, me)
    {
      if Text.Blank(fingerprint) || Text.Blank(transactionId) {
        db.Fail(me);
        return Err(ValueError);
      }
      var row := ReplayRow(Text.Strip(transactionId), createdAt);
      var reply := InsertRow(Text.Strip(fingerprint), row);
      match reply {
        case Done => r := Ok(row);
        case Waiting => r := Err(DatabaseError);
        case RolledBack => r := Err(ValueError);
      }
    }

    /**
      check_and_record_replay. Ok((true, row)) reports a replay within its window, Ok((false, row)) an
      acceptance. A fingerprint that has a row is never accepted again: once its window has passed, the
      second insert meets the primary key and the call raises.
     */
    method CheckAndRecordReplay(fingerprint: string, transactionId: string, ttlSeconds: int, at: int)
      returns (r: Result<(bool, ReplayRow), Failure>)
      requires db.Valid()
      modifies db
      ensures db.Valid() && old(db.log) <= db.log
      ensures Text.Blank(fingerprint) || Text.Blank(transactionId) ==> r == Err(ValueError)
      ensures r.Ok? && r.value.0 ==>
                var rows := View(db.world, me).replays;
                var fp := Text.Strip(fingerprint);
                && fp in rows && rows[fp] == r.value.1
                && InWindow(r.value.1, Text.Strip(transactionId), ttlSeconds, at)
                && TxnOf(db.world, me).pending == TxnOf(old(db.world), me).pending
                && TxnOf(db.world, me).facts == TxnOf(old(db.world), me).facts
      ensures r.Ok? && !r.value.0 ==>
                && r.value.1 == ReplayRow(Text.Strip(transactionId), at)
                && Recorded(old(db.world), db.world, me, Text.Strip(fingerprint), r.value.1)
                && Text.Strip(fingerprint) !in View(old(db.world), me).replays
      ensures var rows := View(old(db.world), me).replays;
              var fp := Text.Strip(fingerprint);
              fp in rows && !InWindow(rows[fp], Text.Strip(transactionId), ttlSeconds, at) ==> r.Err?
      ensures r.Err? ==>
                var rows, fp := View(db.world, me).replays, Text.Strip(fingerprint);
                me !in db.world.open ||
                (r.error == ValueError && (Text.Blank(fingerprint) || Text.Blank(transactionId)
                                           || (fp in rows && rows[fp].transactionId != Text.Strip(transactionId))))
      ensures r.Err? && r.error != ValueError ==>
                r.error == DatabaseError && db.Contended(old(db.log), me, ReplayKey(Text.Strip(fingerprint)))
      ensures var rows := View(old(db.world), me).replays;
              var fp := Text.Strip(fingerprint);
              !Text.Blank(fingerprint) && !Text.Blank(transactionId) && fp in rows
              && InWindow(rows[fp], Text.Strip(transactionId), ttlSeconds, at) ==>
                r == Ok((true, rows[fp])) || r == Err(DatabaseError)
      ensures r.Err? ==> Spoiled(old(db.world), db.world, me)
    {
      if Text.Blank(fingerprint) || Text.Blank(transactionId) {
        db.Fail(me);
        return Err(ValueError);
      }
      var fp, tx := Text.Strip(fingerprint), Text.Strip(transactionId);
      var locked := Lock(fp);
      if !locked {
        return Err(DatabaseError);
      }
      var rows := View(db.world, me).replays;
      if fp in rows {
        var existing := rows[fp];
        if existing.transactionId != tx {
          db.Fail(me);
          return Err(ValueError);
        }
        if ttlSeconds > 0 {
          if at - existing.createdAt < ttlSeconds * NonceSteps.MICROS {
            return Ok((true, existing));
          }
        } else {
          return Ok((true, existing));
        }
      }
      var row := ReplayRow(tx, at);
      ghost var locking := db.log;
      var reply := InsertRow(fp, row);
      if reply == Waiting {
        db.ContendedSince(old(db.log), locking, me, ReplayKey(fp));
      }
      match reply {
        case Done => r := Ok((false, row));
        case Waiting => r := Err(DatabaseError);
        case RolledBack => r := Err(ValueError);
      }
    }

    /**
      is_fingerprint_replayed: is there a row whose window is still open? The answer "no" does not mean that
      the fingerprint can be accepted: a row past its window still stands in the way of the insert.
     */
    method IsFingerprintReplayed(fingerprint: string, ttlSeconds: int, at: int) returns (replayed: bool)
      requires db.Valid()
      modifies db
      ensures db.Valid() && old(db.log) <= db.log
      ensures TxnOf(db.world, me) == TxnOf(old(db.world), me)
      ensures var rows := View(db.world, me).replays;
              var fp := Text.Strip(fingerprint);
              replayed <==>
                && fingerprint != "" && fp in rows
                && InWindow(rows[fp], rows[fp].transactionId, ttlSeconds, at)
    {
      if fingerprint == "" {
        return false;
      }
      db.Yield(me);
      var rows := View(db.world, me).replays;
      var fp := Text.Strip(fingerprint);
      if fp !in rows {
        return false;
      }
      if ttlSeconds > 0 {
        if at - rows[fp].createdAt >= ttlSeconds * NonceSteps.MICROS {
          return false;
        }
      }
      return true;
    }

    /** lock_replay_for_update: the transaction changes in its locks only, and rows seen before are still seen. */
    method Lock(fp: string) returns (locked: bool)
      requires db.Valid()
      modifies db
      ensures db.Valid() && old(db.log) <= db.log
      ensures !locked ==> me !in db.world.open
      ensures locked ==>
                var t, t' := TxnOf(old(db.world), me), TxnOf(db.world, me);
                t' == t.(locks := t'.locks) && t.locks <= t'.locks
      ensures !locked ==> db.Contended(old(db.log), me, ReplayKey(fp))
      ensures locked ==>
                var rows, rows' := View(old(db.world), me).replays, View(db.world, me).replays;
                fp in rows ==> fp in rows' && rows'[fp] == rows[fp]
    {
      ghost var before, log0 := db.world, db.log;
      locked := db.LockForUpdate(me, ReplayKey(fp));
      SeenBefore(db, log0, TxnOf(before, me), fp);
    }
  }

  /** The row answers for the same transaction and its protection window is still open. */
  predicate InWindow(row: ReplayRow, transactionId: Id, ttlSeconds: int, at: int) {
    row.transactionId == transactionId && (ttlSeconds > 0 ==> at - row.createdAt < ttlSeconds * 1_000_000)
  }

  /** `me` recorded a fingerprint that neither the database nor its own transaction had. */
  ghost predicate Recorded(before: World, after: World, me: Worker, fingerprint: string, row: ReplayRow) {
    var t, t' := TxnOf(before, me), TxnOf(after, me);
    && fingerprint !in Overlay(after.tables, t.pending).replays
    && t'.pending == t.pending.(replays := t.pending.replays[fingerprint := row])
    && t'.facts == t.facts + [Accepted(fingerprint, row.transactionId, row.createdAt)]
  }

  /** What recording a fingerprint does to the transaction, if it is let through. */
  lemma RecordAdds(view: Tables, t: Txn, held: set<Key>, fingerprint: string, row: ReplayRow, refused: bool)
    ensures var r := ReplaySteps.Effects(view, t, held,
                                         RecordReplay(fingerprint, row.transactionId, row.createdAt, refused));
            r.Next? ==>
              && fingerprint !in view.replays
              && r.txn.pending == t.pending.(replays := t.pending.replays[fingerprint := row])
              && r.txn.facts == t.facts + [Accepted(fingerprint, row.transactionId, row.createdAt)]
  {
  }

  /** A replay row that a transaction saw at some point of the run is still what it sees. */
  lemma SeenBefore(db: Database, before: seq<Event>, t: Txn, fp: string)
    requires db.Valid() && before <= db.log
    ensures var rows, now := Overlay(Exec(db.codec, db.start, before).tables, t.pending).replays,
            Overlay(db.world.tables, t.pending).replays;
            fp in rows ==> fp in now && now[fp] == rows[fp]
  {
    ReplayRowsStand(db, before);
  }

  /** A replay row that was durable at some point of the run is durable, unchanged, ever after. */
  lemma ReplayRowsStand(db: Database, before: seq<Event>)
    requires db.Valid() && before <= db.log
    ensures var rows := Exec(db.codec, db.start, before).tables.replays;
            forall fp <- rows :: fp in db.world.tables.replays && db.world.tables.replays[fp] == rows[fp]
  {
    var rest := db.log[|before|..];
    assert db.log == before + rest;
    ExecConcat(db.codec, db.start, before, rest);
    ReplayRuns.AcceptedOnceOverRuns(db.codec, db.start, before);
    ReplayRuns.AcceptedOnceOverRuns(db.codec, Exec(db.codec, db.start, before), rest);
  }
}

module StepUpRepositories {
  import opened Outcomes
  import opened Rows
  import opened Transactions
  import opened ChallengeSteps
  import opened Store
  import opened Databases
  import opened Failures

  class StepUpRepository {
    const db: Database
    const me: Worker

    constructor (db: Database, me: Worker)
      ensures this.db == db && this.me == me
    {
      this.db := db;
      this.me := me;
    }

    method Send(b: ChallengeSteps.Action) returns (reply: Reply, ghost seen: World)
      requires db.Valid()
      modifies db
      ensures db.Valid() && old(db.log) <= db.log && db.Reached(old(db.log), seen)
      ensures StandsFor(seen, old(db.world), me)
      ensures db.Met(seen, me, ChallengeSteps.Effects(View(seen, me), TxnOf(seen, me), HeldByOthers(seen, me), b),
                     reply)
    {
      reply, seen := db.Send(me, StepUp(b));
    }

    method CreateChallenge(challengeId: Id, transactionId: Id, risk: string, expiresAt: int)
      returns (r: Result<Challenge, Failure>)
      requires db.Valid()
      modifies db
      ensures db.Valid() && old(db.log) <= db.log
      ensures r.Ok? ==>
                var t := TxnOf(old(db.world), me);
                && r.value == Challenge(transactionId, risk, PENDING, expiresAt, None, None)
                && challengeId !in Overlay(db.world.tables, t.pending).challenges
                && TxnOf(db.world, me) == Put(t, challengeId, r.value).(locks := t.locks + {ChallengeKey(challengeId)})
      ensures r == Err(DatabaseError) ==> db.Contended(old(db.log), me, ChallengeKey(challengeId))
      ensures r.Err? ==> Spoiled(old(db.world), db.world, me)
    {
      var refused: bool := *;
      var reply, seen := Send(Open(challengeId, transactionId, risk, expiresAt, refused));
      OpenAdds(View(seen, me), TxnOf(seen, me), HeldByOthers(seen, me),
               Open(challengeId, transactionId, risk, expiresAt, refused));
      match reply {
        case Done =>
          return Ok(Challenge(transactionId, risk, PENDING, expiresAt, None, None));
        case Waiting => return Err(DatabaseError);
        case RolledBack => return Err(IntegrityError);
      }
    }

    /**
      What approve_challenge, reject_challenge and expire_challenge share: lock the row, decide on it,
      flush the outcome, and raise if the decision does. A raising approval has flushed its row by then.
     */
    method Resolve(b: ChallengeSteps.Action) returns (r: Result<Challenge, Failure>)
      requires db.Valid() && !b.Open?
      modifies db
      ensures db.Valid() && old(db.log) <= db.log
      ensures Resolved(old(db.world), db.world, me, b, r)
      ensures r == Err(DatabaseError) ==> db.Contended(old(db.log), me, ChallengeKey(b.challengeId))
    {
      var locked := db.LockForUpdate(me, ChallengeKey(b.challengeId));
      if !locked {
        return Err(DatabaseError);
      }
      var rows := View(db.world, me).challenges;
      if b.challengeId !in rows {
        db.Fail(me);
        return Err(ValueError);
      }
      var (row, raises) := Decide(rows[b.challengeId], b);
      var reply, seen := Send(b);
      assert SameRow(db.world.tables, seen.tables, ChallengeKey(b.challengeId));
      assert View(seen, me).challenges[b.challengeId] == rows[b.challengeId];
      r := if raises then Err(ValueError) else Ok(row);
    }

    /**
      An approval returns exactly for a pending challenge that has not expired, and records when and by whom it
      was given. Refused, it still flushes EXPIRED if the challenge is past its time, whatever its status.
     */
    method ApproveChallenge(challengeId: Id, approverId: string, metadata: Option<string>, at: int)
      returns (r: Result<Challenge, Failure>)
      requires db.Valid()
      modifies db
      ensures db.Valid() && old(db.log) <= db.log
      ensures Resolved(old(db.world), db.world, me, Approve(challengeId, Metadata(metadata, approverId), at), r)
      ensures r == Err(DatabaseError) ==> db.Contended(old(db.log), me, ChallengeKey(challengeId))
      ensures var rows := Overlay(db.world.tables, TxnOf(old(db.world), me).pending).challenges;
              r != Err(DatabaseError) && challengeId in rows ==>
                var c := rows[challengeId];
                var note := if metadata.None? || metadata.value == "" then "approved_by:" + approverId
                            else metadata.value;
                var approves := c.status == PENDING && at < c.expiresAt;
                && r == (if approves
                         then Ok(c.(status := APPROVED, approvedAt := Some(at), approverMetadata := Some(note)))
                         else Err(ValueError))
                && Flushed(db.world, me, challengeId,
                           if approves then r.value else if at >= c.expiresAt then c.(status := LAPSED) else c)
    {
      r := Resolve(Approve(challengeId, Metadata(metadata, approverId), at));
    }

    method RejectChallenge(challengeId: Id, reason: Option<string>) returns (r: Result<Challenge, Failure>)
      requires db.Valid()
      modifies db
      ensures db.Valid() && old(db.log) <= db.log
      ensures Resolved(old(db.world), db.world, me, Reject(challengeId, OrElse(reason, "rejected")), r)
      ensures r == Err(DatabaseError) ==> db.Contended(old(db.log), me, ChallengeKey(challengeId))
      ensures var rows := Overlay(db.world.tables, TxnOf(old(db.world), me).pending).challenges;
              r != Err(DatabaseError) && challengeId in rows ==>
                var c := rows[challengeId];
                var note := if reason.None? || reason.value == "" then "rejected" else reason.value;
                && r == (if c.status == PENDING then Ok(c.(status := REJECTED, approverMetadata := Some(note)))
                         else Err(ValueError))
                && Flushed(db.world, me, challengeId, if r.Ok? then r.value else c)
    {
      r := Resolve(Reject(challengeId, OrElse(reason, "rejected")));
    }

    /** Only a pending challenge becomes EXPIRED; one that is decided is returned as it is. */
    method ExpireChallenge(challengeId: Id) returns (r: Result<Challenge, Failure>)
      requires db.Valid()
      modifies db
      ensures db.Valid() && old(db.log) <= db.log
      ensures Resolved(old(db.world), db.world, me, Expire(challengeId), r)
      ensures r == Err(DatabaseError) ==> db.Contended(old(db.log), me, ChallengeKey(challengeId))
      ensures var rows := Overlay(db.world.tables, TxnOf(old(db.world), me).pending).challenges;
              r != Err(DatabaseError) && challengeId in rows ==>
                var c := rows[challengeId];
                && r == Ok(if c.status == PENDING then c.(status := LAPSED) else c)
                && Flushed(db.world, me, challengeId, r.value)
    {
      r := Resolve(Expire(challengeId));
    }
  }

  /** The row that the transaction now sees, and will commit. */
  ghost predicate Flushed(w: World, me: Worker, id: Id, row: Challenge) {
    var rows := TxnOf(w, me).pending.challenges;
    id in rows && rows[id] == row
  }

  /** What opening a challenge does to the transaction, if it is let through. */
  lemma OpenAdds(view: Tables, t: Txn, held: set<Key>, b: ChallengeSteps.Action)
    requires b.Open?
    ensures var r := ChallengeSteps.Effects(view, t, held, b);
            r.Next? ==>
              && b.challengeId !in view.challenges
              && r.txn == Put(t, b.challengeId, Challenge(b.transactionId, b.risk, PENDING, b.expiresAt, None, None))
                            .(locks := t.locks + {ChallengeKey(b.challengeId)})
  {
  }

  /** `text or default`: Python's `or` also passes over the empty string. */
  function OrElse(text: Option<string>, default: string): string {
    if text.None? || text.value == "" then default else text.value
  }

  function Metadata(metadata: Option<string>, approverId: string): string {
    OrElse(metadata, "approved_by:" + approverId)
  }

  /**
    The call decided on the row it saw: it returns the decided row, or raises ValueError because there is
    no such row or the decision raises; either way the row the decision produced is what is flushed.
   */
  ghost predicate Resolved(before: World, after: World, me: Worker, b: ChallengeSteps.Action,
                           r: Result<Challenge, Failure>)
    requires !b.Open?
  {
    var t := TxnOf(before, me);
    var rows := Overlay(after.tables, t.pending).challenges;
    if r == Err(DatabaseError) then me !in after.open
    else if b.challengeId !in rows then r == Err(ValueError) && Spoiled(before, after, me)
    else
      var (row, raises) := Decide(rows[b.challengeId], b);
      && r == (if raises then Err(ValueError) else Ok(row))
      && TxnOf(after, me) ==
         Put(t, b.challengeId, row).(locks := t.locks + {ChallengeKey(b.challengeId)}, raised := t.raised || raises)
  }
}

module BudgetRepositories {
  import opened Outcomes
  import opened Rows
  import opened Transactions
  import opened BudgetSteps
  import opened BudgetIsolation
  import ReservedTotals
  import opened Store
  import opened Databases
  import opened Failures

  class BudgetRepository {
    const db: Database
    const me: Worker

    constructor (db: Database, me: Worker)
      ensures this.db == db && this.me == me
    {
      this.db := db;
      this.me := me;
    }

    method Send(b: BudgetSteps.Action) returns (reply: Reply, ghost seen: World)
      requires db.Valid() && !b.ReadReserved?
      modifies db
      ensures db.Valid() && old(db.log) <= db.log
      ensures db.Reached(old(db.log), seen)
      ensures TxnOf(seen, me) == TxnOf(old(db.world), me) && seen.tables.mandates == old(db.world).tables.mandates
      ensures db.Met(seen, me, BudgetSteps.WriteEffect(View(seen, me), TxnOf(seen, me), HeldByOthers(seen, me), b),
                     reply)
    {
      reply, seen := db.Send(me, Budget(b));
    }

    /** The SUM query: under the mandate's lock the transaction remembers the total; nothing else changes. */
    method CalculateReservedTotal(mandateId: Id) returns (total: int)
      requires db.Valid()
      modifies db
      ensures db.Valid() && old(db.log) <= db.log
      ensures TxnOf(db.world, me) ==
              if MandateKey(mandateId) in TxnOf(old(db.world), me).locks
              then TxnOf(old(db.world), me).(quote := Some((mandateId, total))) else TxnOf(old(db.world), me)
      ensures total == ReservedTotal(View(db.world, me).reservations, mandateId)
      ensures db.world.tables.mandates == old(db.world).tables.mandates
    {
      db.Yield(me);
      total := db.SelectReserved(me, mandateId);
    }

    method Book(reservationId: Id, transactionId: Id, requestedPaise: int, ghost mandateId: Id) returns (reply: Reply)
      requires db.Valid() && TxnOf(db.world, me).quote.Some? && TxnOf(db.world, me).quote.value.0 == mandateId
      requires MandateKey(mandateId) in TxnOf(db.world, me).locks
      requires mandateId in View(db.world, me).mandates && 0 < requestedPaise
      requires requestedPaise <= View(db.world, me).mandates[mandateId] - TxnOf(db.world, me).quote.value.1
      modifies db
      ensures db.Valid() && old(db.log) <= db.log
      ensures db.world.tables.mandates == old(db.world).tables.mandates
      ensures reply != Done ==> me !in db.world.open
      ensures reply == Waiting ==> db.Contended(old(db.log), me, ReservationKey(reservationId))
      ensures reply == Done ==> Booked(old(db.world), db.world, me, reservationId,
                                       Reservation(mandateId, transactionId, requestedPaise, requestedPaise, RESERVED))
    {
      var refused: bool := *;
      ghost var seen: World;
      reply, seen := Send(Reserve(reservationId, transactionId, requestedPaise, refused));
      ReserveAdds(View(seen, me), TxnOf(seen, me), HeldByOthers(seen, me), reservationId, transactionId,
                  requestedPaise, refused);
    }

    /**
      reserve_budget_atomically: lock the mandate, total, compare, insert. Other workers run between any two
      of these steps; still, the reservation it makes fits the daily budget together with all it can see.
     */
    method ReserveBudgetAtomically(reservationId: Id, mandateId: Id, transactionId: Id, requestedPaise: int)
      returns (r: Result<Reservation, Failure>)
      requires db.Valid()
      modifies db
      ensures db.Valid() && old(db.log) <= db.log
      ensures requestedPaise <= 0 ==> r == Err(ValueError)
      ensures r.Ok? ==>
                && r.value == Reservation(mandateId, transactionId, requestedPaise, requestedPaise, RESERVED)
                && Booked(old(db.world), db.world, me, reservationId, r.value)
                && mandateId in db.world.tables.mandates
      ensures r.Ok? && WithinBudget(db.start.tables.mandates, db.start.tables.reservations, mandateId) ==>
                WithinBudget(db.world.tables.mandates, View(db.world, me).reservations, mandateId)
      ensures r == Err(ValueError) ==>
                requestedPaise <= 0 || Unaffordable(old(db.world), db.world, me, mandateId, requestedPaise)
      ensures r == Err(IntegrityError) || r == Err(DatabaseError) ==> me !in db.world.open
      ensures r == Err(DatabaseError) ==>
                || db.Contended(old(db.log), me, MandateKey(mandateId))
                || db.Contended(old(db.log), me, ReservationKey(reservationId))
      ensures r.Err? ==> Spoiled(old(db.world), db.world, me)
    {
      if requestedPaise <= 0 {
        db.Fail(me);
        return Err(ValueError);
      }
      var available := Available(mandateId);
      if available.Err? {
        return Err(available.error);
      }
      if requestedPaise > available.value {
        db.Fail(me);
        return Err(ValueError);
      }
      ghost var quoting := db.log;
      var reply := Book(reservationId, transactionId, requestedPaise, mandateId);
      if reply == Waiting {
        db.ContendedSince(old(db.log), quoting, me, ReservationKey(reservationId));
      }
      match reply {
        case Done =>
          BookedStaysWithin(db, me, mandateId);
          return Ok(Reservation(mandateId, transactionId, requestedPaise, requestedPaise, RESERVED));
        case Waiting => return Err(DatabaseError);
        case RolledBack => return Err(IntegrityError);
      }
    }

    /** Steps 1 to 3: lock the mandate, total its active reservations, and subtract. */
    method Available(mandateId: Id) returns (r: Result<int, Failure>)
      requires db.Valid()
      modifies db
      ensures db.Valid() && old(db.log) <= db.log
      ensures r.Ok? ==> Quoted(TxnOf(old(db.world), me), TxnOf(db.world, me), db.world.tables, mandateId, r.value)
      ensures r.Ok? ==> TxnOf(old(db.world), me).pending.mandates == map[]
      ensures r == Err(ValueError) ==> mandateId !in db.world.tables.mandates
      ensures r == Err(DatabaseError) ==>
                me !in db.world.open && db.Contended(old(db.log), me, MandateKey(mandateId))
      ensures r.Err? ==> r == Err(ValueError) || r == Err(DatabaseError)
      ensures r.Err? ==> Spoiled(old(db.world), db.world, me)
    {
      var locked := LockMandate(mandateId);
      if !locked {
        return Err(DatabaseError);
      }
      if mandateId !in db.world.tables.mandates {
        db.Fail(me);
        return Err(ValueError);
      }
      var available := Remaining(mandateId);
      r := Ok(available);
    }

    /** Steps 2 and 3, on a locked mandate. */
    method Remaining(mandateId: Id) returns (available: int)
      requires db.Valid() && MandateKey(mandateId) in TxnOf(db.world, me).locks && mandateId in db.world.tables.mandates
      modifies db
      ensures db.Valid() && old(db.log) <= db.log
      ensures db.world.tables.mandates == old(db.world).tables.mandates
      ensures Quoted(TxnOf(old(db.world), me), TxnOf(db.world, me), db.world.tables, mandateId, available)
    {
      var limit := db.world.tables.mandates[mandateId];
      var reserved := CalculateReservedTotal(mandateId);
      available := limit - reserved;
    }

    method LockMandate(mandateId: Id) returns (locked: bool)
      requires db.Valid()
      modifies db
      ensures db.Valid() && old(db.log) <= db.log
      ensures !locked ==> me !in db.world.open && db.Contended(old(db.log), me, MandateKey(mandateId))
      ensures locked ==> db.world.tables.mandates == old(db.world).tables.mandates
      ensures locked ==>
                var t, t' := TxnOf(old(db.world), me), TxnOf(db.world, me);
                && t' == t.(locks := t'.locks) && t.locks <= t'.locks
                && (mandateId in db.world.tables.mandates ==> MandateKey(mandateId) in t'.locks)
                && t.pending.mandates == map[]
    {
      db.Isolation();
      assert TxnOf(db.world, me).pending.mandates == map[];
      locked := db.LockForUpdate(me, MandateKey(mandateId));
      db.Isolation();
      assert Overlay(db.world.tables, TxnOf(db.world, me).pending).mandates == db.world.tables.mandates;
    }

    /** commit_reservation, its read and its update taken as one step. */
    method CommitReservation(reservationId: Id) returns (r: Result<Reservation, Failure>)
      requires db.Valid()
      modifies db
      ensures db.Valid() && old(db.log) <= db.log
      ensures var rows := Overlay(db.world.tables, TxnOf(old(db.world), me).pending).reservations;
              && (r.Ok? ==> reservationId in rows && rows[reservationId].state == RESERVED
                            && Moved(old(db.world), db.world, me, reservationId, rows[reservationId], COMMITTED,
                                     r.value))
              && (r == Err(ValueError) ==> reservationId !in rows || rows[reservationId].state != RESERVED)
      ensures r == Err(DatabaseError) ==> db.Contended(old(db.log), me, ReservationKey(reservationId))
      ensures r.Err? ==> r.error in {ValueError, DatabaseError}
      ensures r.Err? ==> Spoiled(old(db.world), db.world, me)
    {
      db.Yield(me);
      var rows := View(db.world, me).reservations;
      var reply := Now(BudgetSteps.CommitReservation(reservationId));
      if reply != Done {
        return Err(DatabaseError);
      }
      if reservationId !in rows || rows[reservationId].state != RESERVED {
        return Err(ValueError);
      }
      r := Ok(rows[reservationId].(state := COMMITTED));
    }

    /** release_reservation, its read and its update taken as one step; a released reservation is returned as it is. */
    method ReleaseReservation(reservationId: Id) returns (r: Result<Reservation, Failure>)
      requires db.Valid()
      modifies db
      ensures db.Valid() && old(db.log) <= db.log
      ensures var rows := Overlay(db.world.tables, TxnOf(old(db.world), me).pending).reservations;
              && (r.Ok? ==> reservationId in rows)
              && (r.Ok? && rows[reservationId].state == RELEASED ==>
                    r.value == rows[reservationId] && TxnOf(db.world, me) == TxnOf(old(db.world), me))
              && (r.Ok? && rows[reservationId].state != RELEASED ==>
                    rows[reservationId].state in {RESERVED, EXPIRED}
                    && Moved(old(db.world), db.world, me, reservationId, rows[reservationId], RELEASED, r.value))
              && (r == Err(ValueError) ==>
                    reservationId !in rows || rows[reservationId].state in {AVAILABLE, COMMITTED, SPENT})
      ensures r == Err(DatabaseError) ==> db.Contended(old(db.log), me, ReservationKey(reservationId))
      ensures r.Err? ==> r.error in {ValueError, DatabaseError}
      ensures r.Err? ==> Spoiled(old(db.world), db.world, me)
    {
      db.Yield(me);
      var rows := View(db.world, me).reservations;
      var reply := Now(BudgetSteps.ReleaseReservation(reservationId));
      if reply != Done {
        return Err(DatabaseError);
      }
      if reservationId !in rows {
        return Err(ValueError);
      }
      var row := rows[reservationId];
      if row.state == RELEASED {
        return Ok(row);
      }
      if row.state != RESERVED && row.state != EXPIRED {
        return Err(ValueError);
      }
      r := Ok(row.(state := RELEASED));
    }

    /** A statement sent without yielding since the row was read. */
    method Now(b: BudgetSteps.Action) returns (reply: Reply)
      requires db.Valid() && !b.ReadReserved?
      modifies db
      ensures db.Valid() && old(db.log) <= db.log
      ensures db.Met(old(db.world), me,
                     BudgetSteps.WriteEffect(View(old(db.world), me), TxnOf(old(db.world), me),
                                             HeldByOthers(old(db.world), me), b), reply)
    {
      reply := db.Attempt(me, Budget(b));
    }
  }

  /** From `t` to `t'` the worker locked the mandate and found `available` left of its budget. */
  ghost predicate Quoted(t: Txn, t': Txn, tables: Tables, mandateId: Id, available: int) {
    && t'.pending == t.pending && t'.facts == t.facts && t.locks <= t'.locks
    && MandateKey(mandateId) in t'.locks && mandateId in tables.mandates
    && t'.quote == Some((mandateId, tables.mandates[mandateId] - available))
    && available == tables.mandates[mandateId] - ReservedTotal(Overlay(tables, t.pending).reservations, mandateId)
  }

  /** The mandate is missing, or what `me` saw of its reservations leaves less than was asked for. */
  ghost predicate Unaffordable(before: World, after: World, me: Worker, mandateId: Id, requestedPaise: int) {
    var rows := Overlay(after.tables, TxnOf(before, me).pending).reservations;
    mandateId in after.tables.mandates ==>
      requestedPaise > after.tables.mandates[mandateId] - ReservedTotal(rows, mandateId)
  }

  /** `me` inserted a reservation under an id that neither the database nor its own transaction had. */
  ghost predicate Booked(before: World, after: World, me: Worker, id: Id, row: Reservation) {
    var t, t' := TxnOf(before, me), TxnOf(after, me);
    && id !in Overlay(after.tables, t.pending).reservations
    && t'.pending == t.pending.(reservations := t.pending.reservations[id := row])
    && t.locks <= t'.locks && ReservationKey(id) in t'.locks && MandateKey(row.mandateId) in t'.locks
  }

  /** By how much the call changed what `me` sees reserved for a mandate. */
  ghost function TotalShift(before: World, after: World, me: Worker, mandate: Id): int {
    ReservedTotal(View(after, me).reservations, mandate) -
    ReservedTotal(Overlay(after.tables, TxnOf(before, me).pending).reservations, mandate)
  }

  /** Moving a reservation to another state takes away what it counted and adds what it counts now. */
  lemma MoveShifts(before: World, after: World, me: Worker, id: Id, row: Reservation, to: BudgetState,
                   row': Reservation, mandate: Id)
    requires Moved(before, after, me, id, row, to, row')
    requires var rows := Overlay(after.tables, TxnOf(before, me).pending).reservations; id in rows && rows[id] == row
    ensures TotalShift(before, after, me, mandate) == Weight(row', mandate) - Weight(row, mandate)
  {
    var pending := TxnOf(before, me).pending.reservations;
    var rows := after.tables.reservations + pending;
    assert after.tables.reservations + pending[id := row'] == rows[id := row'];
    ReservedTotals.TotalAfterWrite(rows, id, row', mandate);
  }

  /** commit_reservation changes no total that its worker sees. */
  lemma CommitKeepsTotals(before: World, after: World, me: Worker, id: Id, row: Reservation, row': Reservation)
    requires row.state == RESERVED && Moved(before, after, me, id, row, COMMITTED, row')
    requires var rows := Overlay(after.tables, TxnOf(before, me).pending).reservations; id in rows && rows[id] == row
    ensures forall m :: TotalShift(before, after, me, m) == 0
  {
    forall m ensures TotalShift(before, after, me, m) == 0 {
      MoveShifts(before, after, me, id, row, COMMITTED, row', m);
    }
  }

  /** The whole amount of a RESERVED row goes back to its mandate, of any other row nothing; no other total changes. */
  ghost predicate Frees(before: World, after: World, me: Worker, row: Reservation) {
    forall m :: TotalShift(before, after, me, m) +
      (if row.state == RESERVED && m == row.mandateId then row.reservedPaise else 0) == 0
  }

  /** release_reservation gives back exactly what the row it releases had reserved. */
  lemma ReleaseFrees(before: World, after: World, me: Worker, id: Id, row: Reservation, row': Reservation)
    requires row.state in {RESERVED, EXPIRED} && Moved(before, after, me, id, row, RELEASED, row')
    requires var rows := Overlay(after.tables, TxnOf(before, me).pending).reservations; id in rows && rows[id] == row
    ensures Frees(before, after, me, row)
  {
    forall m
      ensures TotalShift(before, after, me, m) +
              (if row.state == RESERVED && m == row.mandateId then row.reservedPaise else 0) == 0
    {
      MoveShifts(before, after, me, id, row, RELEASED, row', m);
    }
  }

  /** `me` moved the reservation to another state, and changed nothing else of it. */
  ghost predicate Moved(before: World, after: World, me: Worker, id: Id, row: Reservation, to: BudgetState,
                        row': Reservation) {
    var t, t' := TxnOf(before, me), TxnOf(after, me);
    && row' == row.(state := to)
    && t' == Put(t, id, row').(locks := t.locks + {ReservationKey(id)})
  }

  /** The holder of a mandate's lock sees a total within the daily budget. */
  lemma BookedStaysWithin(db: Database, me: Worker, mandateId: Id)
    requires db.Valid() && MandateKey(mandateId) in TxnOf(db.world, me).locks
    ensures WithinBudget(db.start.tables.mandates, db.start.tables.reservations, mandateId) ==>
              WithinBudget(db.world.tables.mandates, View(db.world, me).reservations, mandateId)
  {
    MandatesAreFixed(db.codec, db.start, db.log);
    if mandateId in db.start.tables.mandates
      && WithinBudget(db.start.tables.mandates, db.start.tables.reservations, mandateId) {
      NeverOverBudget(db.codec, db.start, db.log, mandateId, me);
    }
  }
}

module AuditRepositories {
  import opened Outcomes
  import opened Rows
  import opened Transactions
  import opened AuditSteps
  import opened AuditLedger
  import opened Store
  import opened Databases
  import opened Failures

  class AuditRepository {
    const db: Database
    const me: Worker

    constructor (db: Database, me: Worker)
      ensures this.db == db && this.me == me
    {
      this.db := db;
      this.me := me;
    }

    method Send(d: Draft, refused: bool) returns (reply: Reply, ghost seen: World)
      requires db.Valid()
      modifies db
      ensures db.Valid() && old(db.log) <= db.log && db.Reached(old(db.log), seen)
      ensures TxnOf(seen, me) == TxnOf(old(db.world), me)
      ensures db.Met(seen, me,
                     AppendEffect(db.codec, View(seen, me), TxnOf(seen, me), HeldByOthers(seen, me), d, refused), reply)
      ensures LedgerStarts(db) ==> Chained(db.codec, ANY, View(seen, me).audit)
    {
      reply, seen := db.Send(me, Audit(Append(d, refused)));
      if LedgerStarts(db) {
        var before :| old(db.log) <= before <= db.log && seen == Exec(db.codec, db.start, before);
        LedgerOverRuns(db.codec, ANY, db.start, before);
        BeginIsChained(db.codec, ANY, seen.tables);
        assert TxnChained(db.codec, ANY, seen.tables, TxnOf(seen, me));
      }
    }

    /** get_latest_event: the head as of now; other workers may append after it is read. */
    method GetLatestEvent() returns (latest: Option<AuditRow>)
      requires db.Valid()
      modifies db
      ensures db.Valid() && old(db.log) <= db.log
      ensures IsLatest(View(db.world, me).audit, latest)
      ensures TxnOf(db.world, me) == TxnOf(old(db.world), me).(latest := Some(latest))
    {
      db.Yield(me);
      latest := db.SelectLatest(me);
    }

    method Insert(d: Draft, ghost head: Option<AuditRow>, row: AuditRow, payloadJson: string) returns (reply: Reply)
      requires db.Valid() && TxnOf(db.world, me).latest == Some(head)
      requires d.eventType in db.codec.eventTypes && db.codec.dumps(d.payload) == Some(payloadJson)
      requires row == NextRow(db.codec, d, head, payloadJson)
      modifies db
      ensures db.Valid() && old(db.log) <= db.log
      ensures reply != Done ==> me !in db.world.open
      ensures reply == Done ==> Appended(old(db.world), db.world, me, row)
      ensures reply == Done ==> TxnOf(db.world, me).latest == Some(head)
      ensures reply == Done && LedgerStarts(db) ==>
                Chained(db.codec, ANY, Overlay(db.world.tables, TxnOf(old(db.world), me).pending).audit)
    {
      var refused: bool := *;
      ghost var seen: World;
      reply, seen := Send(d, refused);
      if reply == Done {
        assert row.sequenceNumber !in View(seen, me).audit;
      }
    }

    /**
      append_event: read the head, hash the new event onto it, insert. Between the read and the insert other
      workers may append; if the call returns all the same, the row is the head of an unbroken chain.
     */
    method AppendEvent(d: Draft) returns (r: Result<AuditRow, Failure>)
      requires db.Valid()
      modifies db
      ensures db.Valid() && old(db.log) <= db.log
      ensures d.eventType !in db.codec.eventTypes ==> r == Err(ValueError)
      ensures r.Ok? ==> Appended(old(db.world), db.world, me, r.value)
      ensures r.Ok? ==>
                var latest, json := TxnOf(db.world, me).latest, db.codec.dumps(d.payload);
                latest.Some? && json.Some? && r.value == NextRow(db.codec, d, latest.value, json.value)
      ensures r.Ok? && LedgerStarts(db) ==>
                Chained(db.codec, ANY, View(db.world, me).audit) && IsLatest(View(db.world, me).audit, Some(r.value))
      ensures r == Err(ValueError) ==> d.eventType !in db.codec.eventTypes || me !in db.world.open
      ensures r == Err(EncodingError) <==> d.eventType in db.codec.eventTypes && db.codec.dumps(d.payload).None?
      ensures r == Err(IntegrityError) || r == Err(DatabaseError) ==> me !in db.world.open
      ensures r.Err? ==> Spoiled(old(db.world), db.world, me)
    {
      if d.eventType !in db.codec.eventTypes {
        db.Fail(me);
        return Err(ValueError);
      }
      var head := GetLatestEvent();
      var json := db.codec.dumps(d.payload);
      if json.None? {
        db.Fail(me);
        return Err(EncodingError);
      }
      var row := NextRow(db.codec, d, head, json.value);
      ghost var before := TxnOf(db.world, me);
      var reply := Insert(d, head, row, json.value);
      match reply {
        case Done =>
          if LedgerStarts(db) {
            ViewIsChained(db, me);
            PendingIsLast(db.codec, ANY, db.world.tables.audit, before.pending.audit, row);
          }
          r := Ok(row);
        case Waiting => r := Err(DatabaseError);
        case RolledBack => r := Err(ValueError);
      }
    }
  }

  const ANY: Draft -> bool := (d: Draft) => true

  ghost predicate LedgerStarts(db: Database) {
    Chained(db.codec, ANY, db.start.tables.audit)
  }

  /** `me` inserted the row under a sequence number that neither the database nor its own transaction had. */
  ghost predicate Appended(before: World, after: World, me: Worker, row: AuditRow) {
    var t, t' := TxnOf(before, me), TxnOf(after, me);
    && row.sequenceNumber !in Overlay(after.tables, t.pending).audit
    && t'.pending == t.pending.(audit := t.pending.audit[row.sequenceNumber := row])
    && t'.facts == t.facts && t.locks <= t'.locks
    && row.sequenceNumber in t'.pending.audit && t'.pending.audit[row.sequenceNumber] == row
    && t'.latest.Some? && row.sequenceNumber ==
       (if t'.latest.value.None? then 1 else t'.latest.value.value.sequenceNumber + 1)
  }

  /** A row added to one chain to make another is the last of the second. */
  lemma AddedIsLast(c: Codec, good: Draft -> bool, rows: map<int, AuditRow>, row: AuditRow)
    requires Chained(c, good, rows) && row.sequenceNumber !in rows && Chained(c, good, rows[row.sequenceNumber := row])
    ensures IsLatest(rows[row.sequenceNumber := row], Some(row))
  {
    var n := row.sequenceNumber;
    var j: nat :| Chain(c, good, rows, j);
    var k: nat :| Chain(c, good, rows[n := row], k);
    var rows' := rows[n := row];
    assert n in rows' && k in rows';
    assert rows'[n] == row && forall i <- rows' :: i <= n;
  }

  lemma ViewIsChained(db: Database, me: Worker)
    requires db.Valid() && LedgerStarts(db)
    ensures Chained(db.codec, ANY, View(db.world, me).audit)
  {
    LedgerOverRuns(db.codec, ANY, db.start, db.log);
    BeginIsChained(db.codec, ANY, db.world.tables);
    assert TxnChained(db.codec, ANY, db.world.tables, TxnOf(db.world, me));
  }

  lemma PendingIsLast(c: Codec, good: Draft -> bool, durable: map<int, AuditRow>, pending: map<int, AuditRow>,
                      row: AuditRow)
    requires Chained(c, good, durable + pending) && row.sequenceNumber !in durable + pending
    requires Chained(c, good, durable + pending[row.sequenceNumber := row])
    ensures IsLatest(durable + pending[row.sequenceNumber := row], Some(row))
  {
    assert durable + pending[row.sequenceNumber := row] == (durable + pending)[row.sequenceNumber := row];
    AddedIsLast(c, good, durable + pending, row);
  }
}
