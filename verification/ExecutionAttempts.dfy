/**
  Claims of execution attempts, one unit of work after the other. The index over (merchant, key) is not
  unique, so what holds of the claims rests on the lookup that each of them makes first.
 */
module Attempts {
  import opened Outcomes
  import opened Text

  datatype Attempt = Attempt(
    id: string, transaction: string, merchant: string, key: string, fingerprint: string,
    status: string, reference: Option<string>, createdAt: int, completedAt: Option<int>)

  type Rows = map<string, Attempt>

  datatype Failure = EmptyField | ContextMismatch | PayloadTampered | ConstraintViolated | SeveralRows | NotFound

  /**
    A claim. `generated` is the id made up when none is given, and `violates` says that the insert breaks a
    constraint other than the primary key.
   */
  datatype Claim = Claim(
    transaction: string, merchant: string, key: string, fingerprint: string,
    id: string, generated: string, violates: bool, now: int)

  datatype Claimed = Claimed(attempt: Attempt, existing: bool)

  predicate Complete(c: Claim) {
    !Blank(c.transaction) && !Blank(c.merchant) && !Blank(c.key)
  }

  function NewAttempt(c: Claim): Attempt {
    Attempt(if c.id != "" then c.id else c.generated, Strip(c.transaction), Strip(c.merchant), Strip(c.key),
            Strip(c.fingerprint), "CLAIMED", None, c.now, None)
  }

  function Bound(a: Attempt): (string, string) {
    (a.merchant, a.key)
  }

  function BoundTo(c: Claim): (string, string) {
    (Strip(c.merchant), Strip(c.key))
  }

  function Matching(rows: Rows, bound: (string, string)): set<string> {
    set id | id in rows && Bound(rows[id]) == bound
  }

  /** The one matching row, if any; several of them are an error of the query. */
  ghost function Lookup(rows: Rows, bound: (string, string)): Result<Option<Attempt>, Failure> {
    var found := Matching(rows, bound);
    if found == {} then Ok(None)
    else
      var id :| id in found;
      if found == {id} then Ok(Some(rows[id])) else Err(SeveralRows)
  }

  /** An attempt found for the key has to be for the same transaction and payload. */
  function Reuse(a: Attempt, c: Claim): Result<Claimed, Failure> {
    if a.transaction != Strip(c.transaction) then Err(ContextMismatch)
    else if a.fingerprint != Strip(c.fingerprint) then Err(PayloadTampered)
    else Ok(Claimed(a, true))
  }

  /** After a refused insert the fingerprint is not compared again. */
  function ReuseAfterConflict(a: Attempt, c: Claim): Result<Claimed, Failure> {
    if a.transaction != Strip(c.transaction) then Err(ContextMismatch) else Ok(Claimed(a, true))
  }

  predicate Conflicts(rows: Rows, c: Claim) {
    NewAttempt(c).id in rows || c.violates
  }

  /**
    claim_attempt inside a unit of work that began at `durable`: the rows the session then sees, and the
    answer. A refused insert rolls the whole session back before the key is looked up again.
   */
  ghost function Claiming(durable: Rows, rows: Rows, c: Claim): (Rows, Result<Claimed, Failure>) {
    if !Complete(c) then (rows, Err(EmptyField))
    else
      var found := Lookup(rows, BoundTo(c));
      if found.Err? then (rows, Err(found.error))
      else if found.value.Some? then (rows, Reuse(found.value.value, c))
      else if !Conflicts(rows, c) then
        (rows[NewAttempt(c).id := NewAttempt(c)], Ok(Claimed(NewAttempt(c), false)))
      else
        var again := Lookup(durable, BoundTo(c));
        (durable, if again.Err? then Err(again.error)
                  else if again.value.Some? then ReuseAfterConflict(again.value.value, c)
                  else Err(ConstraintViolated))
  }

  datatype Outcome = Outcome(id: string, status: string, reference: string, now: int)

  function Finished(a: Attempt, o: Outcome): Attempt {
    a.(status := o.status, completedAt := Some(o.now),
       reference := if o.reference != "" then Some(o.reference) else a.reference)
  }

  function Recording(rows: Rows, o: Outcome): (Rows, Result<Attempt, Failure>) {
    var id := Strip(o.id);
    if id in rows then (rows[id := Finished(rows[id], o)], Ok(Finished(rows[id], o))) else (rows, Err(NotFound))
  }

  // ---------------------------------------------------------------------------------------------
  // Serial runs
  // ---------------------------------------------------------------------------------------------

  datatype Call = CallClaim(claim: Claim) | CallRecord(outcome: Outcome)

  /** One call in a unit of work of its own, committed if the call returns and rolled back if it raises. */
  ghost function Serve(rows: Rows, call: Call): Rows {
    match call
    case CallClaim(c) => if Claiming(rows, rows, c).1.Ok? then Claiming(rows, rows, c).0 else rows
    case CallRecord(o) => if Recording(rows, o).1.Ok? then Recording(rows, o).0 else rows
  }

  ghost function Run(calls: seq<Call>): Rows {
    if calls == [] then map[] else Serve(Run(calls[..|calls| - 1]), calls[|calls| - 1])
  }

  ghost function Answer(calls: seq<Call>, i: nat): Result<Claimed, Failure>
    requires i < |calls| && calls[i].CallClaim?
  {
    var rows := Run(calls[..i]);
    Claiming(rows, rows, calls[i].claim).1
  }

  /** Call i is a claim of this merchant and key, spaces aside, that succeeds. */
  ghost predicate Claims(calls: seq<Call>, i: nat, bound: (string, string))
    requires i < |calls|
  {
    calls[i].CallClaim? && BoundTo(calls[i].claim) == bound && Answer(calls, i).Ok?
  }

  predicate OneEach(rows: Rows) {
    && (forall id :: id in rows ==> rows[id].id == id)
    && (forall a, b :: a in rows && b in rows && Bound(rows[a]) == Bound(rows[b]) ==> a == b)
  }

  /** What never changes about an attempt. */
  predicate SameClaim(a: Attempt, b: Attempt) {
    && a.id == b.id && a.transaction == b.transaction && a.merchant == b.merchant && a.key == b.key
    && a.fingerprint == b.fingerprint && a.createdAt == b.createdAt
  }

  predicate Keeps(rows: Rows, next: Rows) {
    forall id :: id in rows ==> id in next && SameClaim(rows[id], next[id])
  }

  predicate Known(rows: Rows, bound: (string, string)) {
    exists id :: id in rows && Bound(rows[id]) == bound
  }

  lemma LookupFinds(rows: Rows, bound: (string, string))
    requires OneEach(rows)
    ensures Lookup(rows, bound).Ok?
    ensures Lookup(rows, bound).value.Some? <==> Known(rows, bound)
    ensures Lookup(rows, bound).value.Some? ==>
              var a := Lookup(rows, bound).value.value; a.id in rows && rows[a.id] == a && Bound(a) == bound
  {
    var found := Matching(rows, bound);
    if found != {} {
      var id :| id in found;
      assert found == {id};
    }
    forall id | id in rows && Bound(rows[id]) == bound ensures id in found {
    }
  }

  lemma InsertKeeps(rows: Rows, a: Attempt)
    requires OneEach(rows) && a.id !in rows && !Known(rows, Bound(a))
    ensures OneEach(rows[a.id := a]) && Keeps(rows, rows[a.id := a])
  {
  }

  lemma ServeKeeps(rows: Rows, call: Call)
    requires OneEach(rows)
    ensures OneEach(Serve(rows, call)) && Keeps(rows, Serve(rows, call))
  {
    if call.CallClaim? {
      LookupFinds(rows, BoundTo(call.claim));
      if !Known(rows, BoundTo(call.claim)) && !Conflicts(rows, call.claim) {
        InsertKeeps(rows, NewAttempt(call.claim));
      }
    }
  }

  lemma {:induction false} RunKeeps(calls: seq<Call>, i: nat)
    requires i <= |calls|
    ensures OneEach(Run(calls)) && Keeps(Run(calls[..i]), Run(calls))
  {
    if i == |calls| {
      assert calls[..i] == calls;
      if i > 0 {
        RunKeeps(calls[..i - 1], 0);
        ServeKeeps(Run(calls[..i - 1]), calls[i - 1]);
      }
    } else {
      var n := |calls| - 1;
      assert calls[..n][..i] == calls[..i];
      RunKeeps(calls[..n], i);
      ServeKeeps(Run(calls[..n]), calls[n]);
    }
  }

  /** A successful claim leaves its attempt stored, with the claim's own transaction and fingerprint. */
  lemma ClaimIsStored(rows: Rows, c: Claim)
    requires OneEach(rows) && Claiming(rows, rows, c).1.Ok?
    ensures var (next, answer) := Claiming(rows, rows, c);
            var a := answer.value.attempt;
            && next == Serve(rows, CallClaim(c))
            && a.id in next && next[a.id] == a && Bound(a) == BoundTo(c)
            && a.transaction == Strip(c.transaction) && a.fingerprint == Strip(c.fingerprint)
            && (answer.value.existing <==> Known(rows, BoundTo(c)))
  {
    LookupFinds(rows, BoundTo(c));
  }

  lemma ClaimsFrom(calls: seq<Call>, i: nat, bound: (string, string)) returns (a: Attempt)
    requires i < |calls| && Claims(calls, i, bound)
    ensures a == Answer(calls, i).value.attempt && Bound(a) == bound
    ensures a.id in Run(calls[..i + 1]) && Run(calls[..i + 1])[a.id] == a
    ensures a.transaction == Strip(calls[i].claim.transaction) && a.fingerprint == Strip(calls[i].claim.fingerprint)
    ensures Answer(calls, i).value.existing <==> Known(Run(calls[..i]), bound)
  {
    var rows := Run(calls[..i]);
    RunKeeps(calls[..i], 0);
    ClaimIsStored(rows, calls[i].claim);
    assert calls[..i + 1][..i] == calls[..i] && calls[..i + 1][i] == calls[i];
    assert Run(calls[..i + 1]) == Serve(rows, calls[i]);
    a := Answer(calls, i).value.attempt;
  }

  /** What a claim answered is still there when a later call is made. */
  lemma StillThere(calls: seq<Call>, i: nat, j: nat, bound: (string, string)) returns (a: Attempt)
    requires i < j <= |calls| && Claims(calls, i, bound)
    ensures a == Answer(calls, i).value.attempt && Bound(a) == bound
    ensures a.id in Run(calls[..j]) && SameClaim(a, Run(calls[..j])[a.id]) && OneEach(Run(calls[..j]))
    ensures a.transaction == Strip(calls[i].claim.transaction) && a.fingerprint == Strip(calls[i].claim.fingerprint)
  {
    a := ClaimsFrom(calls, i, bound);
    assert calls[..j][..i + 1] == calls[..i + 1];
    RunKeeps(calls[..j], i + 1);
  }

  /**
    Idempotency: all claims of one merchant and key that succeed answer with the same attempt, claimed for
    the same transaction and payload, and each of them but the first says that it already existed.
   */
  lemma ClaimsAgree(calls: seq<Call>, i: nat, j: nat, bound: (string, string))
    requires i < j < |calls| && Claims(calls, i, bound) && Claims(calls, j, bound)
    ensures SameClaim(Answer(calls, i).value.attempt, Answer(calls, j).value.attempt)
    ensures Answer(calls, j).value.existing
    ensures Strip(calls[i].claim.transaction) == Strip(calls[j].claim.transaction)
    ensures Strip(calls[i].claim.fingerprint) == Strip(calls[j].claim.fingerprint)
  {
    var a := StillThere(calls, i, j + 1, bound);
    var b := StillThere(calls, j, j + 1, bound);
    assert a.id == b.id;
    LaterClaimExists(calls, i, j, bound);
  }

  lemma LaterClaimExists(calls: seq<Call>, i: nat, j: nat, bound: (string, string))
    requires i < j < |calls| && Claims(calls, i, bound) && Claims(calls, j, bound)
    ensures Answer(calls, j).value.existing
  {
    var a := StillThere(calls, i, j, bound);
    var b := ClaimsFrom(calls, j, bound);
    assert Known(Run(calls[..j]), bound);
  }

  /** A key once claimed: the answer to every later claim of it, by its transaction and payload. */
  lemma LaterClaimIs(calls: seq<Call>, i: nat, j: nat, bound: (string, string))
    requires i < j < |calls| && Claims(calls, i, bound)
    requires calls[j].CallClaim? && BoundTo(calls[j].claim) == bound
    ensures var (first, c, answer) := (calls[i].claim, calls[j].claim, Answer(calls, j));
            if Strip(c.transaction) == "" then answer == Err(EmptyField)
            else if Strip(c.transaction) != Strip(first.transaction) then answer == Err(ContextMismatch)
            else if Strip(c.fingerprint) != Strip(first.fingerprint) then answer == Err(PayloadTampered)
            else
              && answer.Ok? && answer.value.existing
              && SameClaim(Answer(calls, i).value.attempt, answer.value.attempt)
  {
    var a := StillThere(calls, i, j, bound);
    LookupFinds(Run(calls[..j]), bound);
    assert Known(Run(calls[..j]), bound);
    assert Complete(calls[i].claim);
  }

  /** Only a claim that says it is new adds a row. */
  lemma NewRowIsClaimed(rows: Rows, call: Call, id: string)
    requires OneEach(rows) && id in Serve(rows, call) && id !in rows
    ensures call.CallClaim? && Bound(Serve(rows, call)[id]) == BoundTo(call.claim)
    ensures Claiming(rows, rows, call.claim).1 == Ok(Claimed(Serve(rows, call)[id], false))
            && Serve(rows, call)[id].id == id
  {
    if call.CallClaim? {
      LookupFinds(rows, BoundTo(call.claim));
    }
  }

  /** An attempt that a claim finds was made by an earlier claim of that key, which said it was new. */
  lemma {:induction false} StoredByAClaim(calls: seq<Call>, id: string) returns (i: nat)
    requires id in Run(calls)
    ensures i < |calls| && Claims(calls, i, Bound(Run(calls)[id]))
    ensures !Answer(calls, i).value.existing && Answer(calls, i).value.attempt.id == id
  {
    var n := |calls| - 1;
    RunKeeps(calls[..n], 0);
    ServeKeeps(Run(calls[..n]), calls[n]);
    if id in Run(calls[..n]) {
      i := StoredByAClaim(calls[..n], id);
      assert calls[..n][..i] == calls[..i];
    } else {
      i := n;
      NewRowIsClaimed(Run(calls[..n]), calls[n], id);
    }
  }

  lemma ExactlyOneClaimIsNew(calls: seq<Call>, j: nat, bound: (string, string)) returns (i: nat)
    requires j < |calls| && Claims(calls, j, bound)
    ensures i <= j && Claims(calls, i, bound) && !Answer(calls, i).value.existing
    ensures forall k: nat | k < |calls| && Claims(calls, k, bound) && !Answer(calls, k).value.existing :: k == i
  {
    var a := ClaimsFrom(calls, j, bound);
    i := j;
    if Answer(calls, j).value.existing {
      var id :| id in Run(calls[..j]) && Bound(Run(calls[..j])[id]) == bound;
      i := StoredByAClaim(calls[..j], id);
      assert calls[..j][..i] == calls[..i];
    }
    forall k: nat | k < |calls| && Claims(calls, k, bound) && !Answer(calls, k).value.existing ensures k == i {
      if k < i {
        ClaimsAgree(calls, k, i, bound);
      } else if i < k {
        ClaimsAgree(calls, i, k, bound);
      }
    }
  }

  /** Every row of `rows` is in `next`, as it was. */
  predicate Survive(rows: Rows, next: Rows) {
    forall id :: id in rows ==> id in next && next[id] == rows[id]
  }

  /** The claim goes as far as the insert, and the insert is refused. */
  predicate InsertRefused(rows: Rows, c: Claim) {
    && Complete(c) && !Known(rows, BoundTo(c))
    && ((if c.id != "" then c.id else c.generated) in rows || c.violates)
  }

  /**
    Inside a longer unit of work a refused insert is not harmless. What the session sees survives a claim
    exactly if no insert is refused, or if it had all been there when the unit of work began; after a refused
    insert the session is back there.
   */
  lemma EarlierWritesSurviveIff(durable: Rows, rows: Rows, c: Claim)
    requires OneEach(rows)
    ensures Survive(rows, Claiming(durable, rows, c).0) <==> !InsertRefused(rows, c) || Survive(rows, durable)
    ensures InsertRefused(rows, c) ==> Claiming(durable, rows, c).0 == durable
    ensures InsertRefused(rows, c) && Claiming(durable, rows, c).1.Ok? ==> Claiming(durable, rows, c).1.value.existing
  {
    LookupFinds(rows, BoundTo(c));
  }

  /** A complete claim of a key that nobody has claimed is new, unless its insert is refused. */
  lemma FirstClaimIsNew(durable: Rows, rows: Rows, c: Claim)
    requires OneEach(rows) && Complete(c) && !Known(rows, BoundTo(c)) && !InsertRefused(rows, c)
    ensures Claiming(durable, rows, c).1 == Ok(Claimed(NewAttempt(c), false))
  {
    LookupFinds(rows, BoundTo(c));
  }

  /** After a refused insert the key is looked up where the unit of work began, and the payload is not compared. */
  lemma AnswerAfterConflict(durable: Rows, rows: Rows, c: Claim)
    requires OneEach(rows) && OneEach(durable) && InsertRefused(rows, c)
    ensures var answer := Claiming(durable, rows, c).1;
            if !Known(durable, BoundTo(c)) then answer == Err(ConstraintViolated)
            else
              exists id :: id in durable && Bound(durable[id]) == BoundTo(c) &&
                answer == (if durable[id].transaction == Strip(c.transaction) then Ok(Claimed(durable[id], true))
                           else Err(ContextMismatch))
  {
    LookupFinds(rows, BoundTo(c));
    LookupFinds(durable, BoundTo(c));
  }

  /**
    A unit of work claims an attempt, then reuses its id under another key: the second claim raises, and the
    attempt that the first one reported as claimed is gone.
   */
  lemma RefusedInsertLosesAnAttempt() returns (first: Claim, second: Claim)
    ensures var (rows, one) := Claiming(map[], map[], first);
            var (next, two) := Claiming(map[], rows, second);
            && one == Ok(Claimed(NewAttempt(first), false)) && NewAttempt(first).id in rows
            && two == Err(ConstraintViolated) && NewAttempt(first).id !in next
  {
    first, second := Claim("t", "m", "k", "f", "a", "", false, 0), Claim("t", "m", "j", "f", "a", "", false, 1);
    assert Strip("t") == "t" && Strip("m") == "m" && Strip("k") == "k" && Strip("j") == "j";
    LookupFinds(map[], BoundTo(first));
    var rows := Claiming(map[], map[], first).0;
    assert rows == map["a" := NewAttempt(first)];
    LookupFinds(rows, BoundTo(second));
    LookupFinds(map[], BoundTo(second));
  }
}

/** The repository over the rows its session sees, and the state the session would roll back to. */
module AttemptRepositories {
  import opened Outcomes
  import opened Text
  import opened Attempts

  class ExecutionAttemptRepository {
    ghost var durable: Rows
    var rows: Rows

    /** A repository bound to the session of a unit of work that just began. */
    constructor (stored: Rows)
      ensures durable == stored && rows == stored
    {
      durable, rows := stored, stored;
    }

    method GetAttemptByKey(merchant: string, key: string) returns (r: Result<Option<Attempt>, Failure>)
      ensures r == Lookup(rows, (Strip(merchant), Strip(key)))
      ensures r == Ok(None) <==> !exists id :: id in rows && Bound(rows[id]) == (Strip(merchant), Strip(key))
      ensures r.Ok? && r.value.Some? ==>
                exists id :: id in rows && rows[id] == r.value.value && Bound(rows[id]) == (Strip(merchant), Strip(key))
                  && forall other :: other in rows && Bound(rows[other]) == Bound(rows[id]) ==> other == id
      ensures r.Err? ==> r.error == SeveralRows
    {
      var m, k := Strip(merchant), Strip(key);
      ghost var found := Matching(rows, (m, k));
      if id :| id in rows && rows[id].merchant == m && rows[id].key == k {
        assert id in found;
        if other :| other in rows && rows[other].merchant == m && rows[other].key == k && other != id {
          assert other in found;
          return Err(SeveralRows);
        }
        assert found == {id};
        return Ok(Some(rows[id]));
      }
      return Ok(None);
    }

    /** session.rollback(): back to the state the unit of work began at. */
    method RollbackSession(stored: Rows)
      requires stored == durable
      modifies this`rows
      ensures rows == durable
    {
      rows := stored;
    }

    /** `stored` is what a rollback brings back. */
    method ClaimAttempt(c: Claim, stored: Rows) returns (r: Result<Claimed, Failure>)
      requires stored == durable
      modifies this`rows
      ensures (rows, r) == Claiming(durable, old(rows), c)
      ensures r == Err(EmptyField) <==> Blank(c.transaction) || Blank(c.merchant) || Blank(c.key)
      ensures r.Ok? && !r.value.existing ==>
                && r.value.attempt ==
                   Attempt(if c.id != "" then c.id else c.generated, Strip(c.transaction), Strip(c.merchant),
                           Strip(c.key), Strip(c.fingerprint), "CLAIMED", None, c.now, None)
                && r.value.attempt.id !in old(rows) && rows == old(rows)[r.value.attempt.id := r.value.attempt]
      ensures r.Ok? && r.value.existing ==>
                && Strip(c.transaction) == r.value.attempt.transaction
                && (rows == old(rows) || rows == durable)
    {
      if Blank(c.transaction) || Blank(c.merchant) || Blank(c.key) {
        return Err(EmptyField);
      }
      StripIdempotent(c.merchant);
      StripIdempotent(c.key);
      var existing := GetAttemptByKey(Strip(c.merchant), Strip(c.key));
      if existing.Err? {
        return Err(existing.error);
      }
      if existing.value.Some? {
        var a := existing.value.value;
        if a.transaction != Strip(c.transaction) {
          return Err(ContextMismatch);
        }
        if a.fingerprint != Strip(c.fingerprint) {
          return Err(PayloadTampered);
        }
        return Ok(Claimed(a, true));
      }
      var a := NewAttempt(c);
      if a.id in rows || c.violates {
        RollbackSession(stored);
        var again := GetAttemptByKey(Strip(c.merchant), Strip(c.key));
        if again.Err? {
          return Err(again.error);
        }
        if again.value.None? {
          return Err(ConstraintViolated);
        }
        if again.value.value.transaction != Strip(c.transaction) {
          return Err(ContextMismatch);
        }
        return Ok(Claimed(again.value.value, true));
      }
      rows := rows[a.id := a];
      return Ok(Claimed(a, false));
    }

    method RecordOutcome(o: Outcome) returns (r: Result<Attempt, Failure>)
      modifies this`rows
      ensures (rows, r) == Recording(old(rows), o)
      ensures var id := Strip(o.id);
              if id !in old(rows) then r == Err(NotFound) && rows == old(rows)
              else
                var was := old(rows)[id];
                && r == Ok(was.(status := o.status, completedAt := Some(o.now),
                                reference := if o.reference == "" then was.reference else Some(o.reference)))
                && rows == old(rows)[id := r.value]
    {
      var id := Strip(o.id);
      if id !in rows {
        return Err(NotFound);
      }
      var a := rows[id].(status := o.status, completedAt := Some(o.now));
      if o.reference != "" {
        a := a.(reference := Some(o.reference));
      }
      rows := rows[id := a];
      return Ok(a);
    }
  }
}
