/**
  Many workers over one database: the steps a worker can take, and runs that interleave them.
 */
module Store {
  import opened Rows
  import opened Transactions
  import AuditSteps
  import BudgetSteps
  import NonceSteps
  import ReplaySteps
  import ChallengeSteps
  import TransactionSteps

  type Worker = nat

  datatype World = World(tables: Tables, open: map<Worker, Txn>, journal: seq<Fact>)

  datatype Action =
    | LockRow(key: Key)
    | Audit(audit: AuditSteps.Action)
    | Budget(budget: BudgetSteps.Action)
    | Nonce(nonce: NonceSteps.Action)
    | Replay(replay: ReplaySteps.Action)
    | StepUp(stepUp: ChallengeSteps.Action)
    | Pay(pay: TransactionSteps.Action)
    | Raise  // a check outside the database raises
    | Commit
    | Abort

  datatype Event = Event(worker: Worker, action: Action)

  function TxnOf(w: World, me: Worker): Txn {
    if me in w.open then w.open[me] else BEGIN
  }

  function View(w: World, me: Worker): Tables {
    Overlay(w.tables, TxnOf(w, me).pending)
  }

  /** The rows that open transactions other than `me`'s own. */
  function HeldByOthers(w: World, me: Worker): set<Key> {
    set x, k | x in w.open && x != me && k in w.open[x].locks :: k
  }

  /** One statement other than COMMIT, seen from the worker's own transaction. */
  ghost function Effects(c: AuditSteps.Codec, tables: Tables, txn: Txn, held: set<Key>, a: Action): Effect
    requires a != Commit
  {
    var view := Overlay(tables, txn.pending);
    match a
    case LockRow(key) => Lock(view, txn, held, key)
    case Audit(b) => AuditSteps.Effects(c, view, txn, held, b)
    case Budget(b) => BudgetSteps.Effects(view, txn, held, b)
    case Nonce(b) => NonceSteps.Effects(view, txn, held, b)
    case Replay(b) => ReplaySteps.Effects(view, txn, held, b)
    case StepUp(b) => ChallengeSteps.Effects(view, txn, held, b)
    case Pay(b) => TransactionSteps.Effects(view, txn, held, b)
    case Raise => Raised(txn)
    case Abort => Failed
  }

  lemma PayEffects(c: AuditSteps.Codec, tables: Tables, txn: Txn, held: set<Key>, b: TransactionSteps.Action)
    ensures Effects(c, tables, txn, held, Pay(b)) ==
              TransactionSteps.Effects(Overlay(tables, txn.pending), txn, held, b)
  {
  }

  ghost function Apply(c: AuditSteps.Codec, w: World, e: Event): World {
    var txn := TxnOf(w, e.worker);
    if e.action == Commit then
      World(Overlay(w.tables, txn.pending), w.open - {e.worker}, w.journal + txn.facts)
    else
      match Effects(c, w.tables, txn, HeldByOthers(w, e.worker), e.action)
      case Next(t) => w.(open := w.open[e.worker := t])
      case Blocked => w
      case Failed => w.(open := w.open - {e.worker})
  }

  /** The world after a schedule: any interleaving of any workers' statements. */
  ghost function Exec(c: AuditSteps.Codec, w: World, schedule: seq<Event>): World {
    if schedule == [] then w
    else Apply(c, Exec(c, w, schedule[..|schedule| - 1]), schedule[|schedule| - 1])
  }

  /** A database before any transaction is open. */
  ghost predicate Quiet(w: World) {
    w.open == map[] && w.journal == []
  }

  // ---------------------------------------------------------------------------------------------
  // Row ownership
  // ---------------------------------------------------------------------------------------------

  /** No row is owned twice, and every flushed row is owned by the transaction that flushed it. */
  ghost predicate Isolated(w: World) {
    && (forall x <- w.open :: OwnsItsRows(w.open[x]))
    && (forall x, y | x in w.open && y in w.open && x != y :: w.open[x].locks !! w.open[y].locks)
  }

  lemma EffectsFair(c: AuditSteps.Codec, tables: Tables, txn: Txn, held: set<Key>, a: Action)
    requires a != Commit
    ensures Fair(txn, held, Effects(c, tables, txn, held, a))
  {
    var view := Overlay(tables, txn.pending);
    match a
    case LockRow(key) =>
    case Audit(b) => AuditSteps.EffectsFair(c, view, txn, held, b);
    case Budget(b) => BudgetSteps.EffectsFair(view, txn, held, b);
    case Nonce(b) => NonceSteps.EffectsFair(view, txn, held, b);
    case Replay(b) => ReplaySteps.EffectsFair(view, txn, held, b);
    case StepUp(b) => ChallengeSteps.EffectsFair(view, txn, held, b);
    case Pay(b) => TransactionSteps.EffectsFair(view, txn, held, b);
    case Raise =>
    case Abort =>
  }

  // ---------------------------------------------------------------------------------------------
  // Which part of a transaction a statement can change
  // ---------------------------------------------------------------------------------------------

  /** The facts a statement can add. */
  predicate Adds(a: Action, f: Fact) {
    match f
    case Consumed(_, _, _, _, _) => a.Nonce?
    case Accepted(_, _, _) => a.Replay?
    case Answered(_, _, _) => a.Pay?
    case Entered(_, _) => a.Pay?
  }

  /** A statement touches its own table, what is remembered for it, the locks, and the mark of a raised error. */
  ghost predicate Frame(a: Action, t: Txn, t': Txn) {
    && t'.pending.mandates == t.pending.mandates
    && (!a.Audit? ==> t'.pending.audit == t.pending.audit && t'.latest == t.latest)
    && (!a.Budget? ==> t'.pending.reservations == t.pending.reservations && t'.quote == t.quote)
    && (!a.Nonce? ==> t'.pending.nonces == t.pending.nonces)
    && (!a.Replay? ==> t'.pending.replays == t.pending.replays)
    && (!a.StepUp? ==> t'.pending.challenges == t.pending.challenges)
    && (!a.Pay? ==> t'.pending.transactions == t.pending.transactions)
    && (t.raised ==> t'.raised)
    && (!a.LockRow? ==> LocksNoMandate(t, t'))
    && (t'.facts == t.facts || exists f :: Adds(a, f) && t'.facts == t.facts + [f])
  }

  lemma TokenEffectsFrame(c: AuditSteps.Codec, tables: Tables, txn: Txn, held: set<Key>, a: Action)
    requires a.Nonce? || a.Replay? || a.StepUp? || a.Pay?
    ensures var r := Effects(c, tables, txn, held, a); r.Next? ==> Frame(a, txn, r.txn)
  {
    var view := Overlay(tables, txn.pending);
    match a
    case Nonce(b) => NonceSteps.EffectsFrame(view, txn, held, b);
    case Replay(b) => ReplaySteps.EffectsFrame(view, txn, held, b);
    case StepUp(b) => ChallengeSteps.EffectsFrame(view, txn, held, b);
    case Pay(b) => TransactionSteps.EffectsFrame(view, txn, held, b);
  }

  lemma PlainEffectsFrame(c: AuditSteps.Codec, tables: Tables, txn: Txn, held: set<Key>, a: Action)
    requires a.LockRow? || a.Raise? || a.Abort?
    ensures var r := Effects(c, tables, txn, held, a); r.Next? ==> Frame(a, txn, r.txn)
  {
  }

  lemma LedgerEffectsFrame(c: AuditSteps.Codec, tables: Tables, txn: Txn, held: set<Key>, a: Action)
    requires a.Audit? || a.Budget?
    ensures var r := Effects(c, tables, txn, held, a); r.Next? ==> Frame(a, txn, r.txn)
  {
    var view := Overlay(tables, txn.pending);
    match a
    case Audit(b) => AuditSteps.EffectsFrame(c, view, txn, held, b);
    case Budget(b) => BudgetSteps.EffectsFrame(view, txn, held, b);
  }

  lemma EffectsFrame(c: AuditSteps.Codec, tables: Tables, txn: Txn, held: set<Key>, a: Action)
    requires a != Commit
    ensures var r := Effects(c, tables, txn, held, a); r.Next? ==> Frame(a, txn, r.txn)
  {
    if a.Audit? || a.Budget? {
      LedgerEffectsFrame(c, tables, txn, held, a);
    } else if a.Nonce? || a.Replay? || a.StepUp? || a.Pay? {
      TokenEffectsFrame(c, tables, txn, held, a);
    } else {
      PlainEffectsFrame(c, tables, txn, held, a);
    }
  }

  /** A statement other than COMMIT changes its worker's transaction, if anything. */
  lemma OneTransactionSteps(c: AuditSteps.Codec, w: World, e: Event)
    requires e.action != Commit
    ensures var w' := Apply(c, w, e);
            && w'.tables == w.tables && w'.journal == w.journal
            && (forall x | x in w'.open && x != e.worker :: x in w.open && w'.open[x] == w.open[x])
    ensures var w' := Apply(c, w, e);
            var r := Effects(c, w.tables, TxnOf(w, e.worker), HeldByOthers(w, e.worker), e.action);
            e.worker in w'.open ==>
              (r.Next? && w'.open[e.worker] == r.txn) || (e.worker in w.open && w'.open[e.worker] == w.open[e.worker])
  {
  }

  /** A worker on its own takes a statement that neither waits nor fails. */
  lemma StepAlone(c: AuditSteps.Codec, w: World, me: Worker, a: Action, t: Txn)
    requires w.open.Keys <= {me} && a != Commit
    requires Effects(c, w.tables, TxnOf(w, me), {}, a) == Next(t)
    ensures Apply(c, w, Event(me, a)) == World(w.tables, map[me := t], w.journal)
  {
    assert HeldByOthers(w, me) == {};
    assert w.open[me := t] == map[me := t];
  }

  lemma CommitAlone(c: AuditSteps.Codec, w: World, me: Worker)
    requires w.open.Keys == {me}
    ensures Apply(c, w, Event(me, Commit)) ==
              World(Overlay(w.tables, w.open[me].pending), map[], w.journal + w.open[me].facts)
  {
    assert w.open - {me} == map[];
  }

  lemma ThreeSteps(c: AuditSteps.Codec, w: World, a: Event, b: Event, d: Event)
    ensures Exec(c, w, [a, b, d]) == Apply(c, Apply(c, Apply(c, w, a), b), d)
  {
    assert [a, b, d][..2] == [a, b] && [a, b][..1] == [a] && [a][..0] == [];
    assert Exec(c, w, []) == w;
    assert Exec(c, w, [a]) == Apply(c, w, a);
    assert Exec(c, w, [a, b]) == Apply(c, Apply(c, w, a), b);
  }

  // ---------------------------------------------------------------------------------------------
  // Isolation
  // ---------------------------------------------------------------------------------------------

  lemma PutIsolated(w: World, me: Worker, t: Txn)
    requires Isolated(w) && OwnsItsRows(t) && t.locks !! HeldByOthers(w, me)
    ensures Isolated(w.(open := w.open[me := t]))
  {
    forall x | x in w.open && x != me ensures w.open[x].locks !! t.locks {
      assert forall k :: k in w.open[x].locks ==> k in HeldByOthers(w, me);
    }
  }

  lemma OthersHoldOthers(w: World, me: Worker)
    requires Isolated(w)
    ensures OwnsItsRows(TxnOf(w, me)) && TxnOf(w, me).locks !! HeldByOthers(w, me)
  {
  }

  lemma ApplyIsolated(c: AuditSteps.Codec, w: World, e: Event)
    requires Isolated(w)
    ensures Isolated(Apply(c, w, e))
  {
    if e.action != Commit {
      var txn, held := TxnOf(w, e.worker), HeldByOthers(w, e.worker);
      EffectsFair(c, w.tables, txn, held, e.action);
      OthersHoldOthers(w, e.worker);
      var r := Effects(c, w.tables, txn, held, e.action);
      assert Fair(txn, held, r);
      if r.Next? {
        PutIsolated(w, e.worker, r.txn);
      }
    }
  }

  lemma {:induction false} ExecIsolated(c: AuditSteps.Codec, w: World, schedule: seq<Event>)
    requires Isolated(w)
    ensures Isolated(Exec(c, w, schedule))
  {
    if schedule != [] {
      ExecIsolated(c, w, schedule[..|schedule| - 1]);
      ApplyIsolated(c, Exec(c, w, schedule[..|schedule| - 1]), schedule[|schedule| - 1]);
    }
  }

  // ---------------------------------------------------------------------------------------------
  // What other workers can and cannot do
  // ---------------------------------------------------------------------------------------------

  lemma {:induction false} ExecConcat(c: AuditSteps.Codec, w: World, a: seq<Event>, b: seq<Event>)
    ensures Exec(c, w, a + b) == Exec(c, Exec(c, w, a), b)
  {
    if b == [] {
      assert a + b == a;
    } else {
      var init := b[..|b| - 1];
      assert (a + b)[..|a + b| - 1] == a + init;
      ExecConcat(c, w, a, init);
    }
  }

  ghost predicate Foreign(schedule: seq<Event>, me: Worker) {
    forall i | 0 <= i < |schedule| :: schedule[i].worker != me
  }

  predicate SameRow(a: Tables, b: Tables, key: Key) {
    match key
    case SeqKey(n) => (n in a.audit <==> n in b.audit) && (n in a.audit ==> a.audit[n] == b.audit[n])
    case MandateKey(id) => (id in a.mandates <==> id in b.mandates)
      && (id in a.mandates ==> a.mandates[id] == b.mandates[id])
    case ReservationKey(id) =>
      (id in a.reservations <==> id in b.reservations)
        && (id in a.reservations ==> a.reservations[id] == b.reservations[id])
    case NonceKey(n) => (n in a.nonces <==> n in b.nonces) && (n in a.nonces ==> a.nonces[n] == b.nonces[n])
    case ReplayKey(fp) => (fp in a.replays <==> fp in b.replays) && (fp in a.replays ==> a.replays[fp] == b.replays[fp])
    case ChallengeKey(id) =>
      (id in a.challenges <==> id in b.challenges) && (id in a.challenges ==> a.challenges[id] == b.challenges[id])
    case TransactionKey(id) =>
      (id in a.transactions <==> id in b.transactions)
        && (id in a.transactions ==> a.transactions[id] == b.transactions[id])
    case IdempotencyKey(_) => Present(b, key) ==> Present(a, key)  // nobody else takes the key
  }

  lemma SameRowReflexive(a: Tables, key: Key)
    ensures SameRow(a, a, key)
  {
  }

  lemma CommitSparesRow(tables: Tables, mine: Txn, key: Key)
    requires OwnsItsRows(mine) && key !in mine.locks
    ensures SameRow(tables, Overlay(tables, mine.pending), key)
  {
    match key
    case SeqKey(n) =>
    case MandateKey(id) =>
    case ReservationKey(id) =>
    case NonceKey(n) =>
    case ReplayKey(fp) =>
    case ChallengeKey(id) =>
    case TransactionKey(id) =>
    case IdempotencyKey(k) =>
  }

  lemma ForeignStepKeepsTxn(c: AuditSteps.Codec, w: World, e: Event, me: Worker)
    requires e.worker != me
    ensures TxnOf(Apply(c, w, e), me) == TxnOf(w, me)
  {
  }

  lemma OnlyCommitWrites(c: AuditSteps.Codec, w: World, e: Event)
    ensures e.action != Commit ==> Apply(c, w, e).tables == w.tables
  {
  }

  lemma ForeignStep(c: AuditSteps.Codec, w: World, e: Event, me: Worker, key: Key)
    requires Isolated(w) && e.worker != me
    ensures TxnOf(Apply(c, w, e), me) == TxnOf(w, me)
    ensures key in TxnOf(w, me).locks ==> SameRow(w.tables, Apply(c, w, e).tables, key)
  {
    ForeignStepKeepsTxn(c, w, e, me);
    if key in TxnOf(w, me).locks {
      if e.action == Commit {
        OthersHoldOthers(w, e.worker);
        assert key !in TxnOf(w, e.worker).locks;
        CommitSparesRow(w.tables, TxnOf(w, e.worker), key);
      } else {
        OnlyCommitWrites(c, w, e);
        SameRowReflexive(w.tables, key);
      }
    }
  }

  /** Whatever other workers do, a transaction keeps its state, and the rows it owns stand still. */
  lemma {:induction false} OwnedRowsStand(c: AuditSteps.Codec, w: World, schedule: seq<Event>, me: Worker, key: Key)
    requires Isolated(w) && Foreign(schedule, me)
    ensures TxnOf(Exec(c, w, schedule), me) == TxnOf(w, me)
    ensures key in TxnOf(w, me).locks ==> SameRow(w.tables, Exec(c, w, schedule).tables, key)
  {
    if schedule != [] {
      var before := schedule[..|schedule| - 1];
      OwnedRowsStand(c, w, before, me, key);
      ExecIsolated(c, w, before);
      ForeignStep(c, Exec(c, w, before), schedule[|schedule| - 1], me, key);
    }
  }

  /** `now` differs from `before` only by what other workers can do to it. */
  ghost predicate StandsFor(now: World, before: World, me: Worker) {
    && TxnOf(now, me) == TxnOf(before, me)
    && now.tables.mandates == before.tables.mandates
    && forall key <- TxnOf(before, me).locks :: SameRow(before.tables, now.tables, key)
  }

  lemma OthersRan(c: AuditSteps.Codec, start: World, before: seq<Event>, after: seq<Event>, me: Worker)
    requires Quiet(start) && before <= after && Foreign(after[|before|..], me)
    ensures Isolated(Exec(c, start, after))
    ensures StandsFor(Exec(c, start, after), Exec(c, start, before), me)
  {
    var others := after[|before|..];
    assert after == before + others;
    ExecConcat(c, start, before, others);
    ExecIsolated(c, start, before);
    ExecIsolated(c, start, after);
    var w := Exec(c, start, before);
    MandatesAreFixed(c, w, others);
    OwnedRowsStand(c, w, others, me, MandateKey(""));
    forall key <- TxnOf(w, me).locks ensures SameRow(w.tables, Exec(c, start, after).tables, key) {
      OwnedRowsStand(c, w, others, me, key);
    }
  }

  /** No statement of the model changes a mandate. */
  lemma ApplyFixesMandates(c: AuditSteps.Codec, w: World, e: Event)
    requires Isolated(w)
    ensures Apply(c, w, e).tables.mandates == w.tables.mandates
  {
    if e.action == Commit {
      OthersHoldOthers(w, e.worker);
      assert w.tables.mandates + map[] == w.tables.mandates;
    } else {
      OnlyCommitWrites(c, w, e);
    }
  }

  lemma {:induction false} MandatesAreFixed(c: AuditSteps.Codec, w: World, schedule: seq<Event>)
    requires Isolated(w)
    ensures Exec(c, w, schedule).tables.mandates == w.tables.mandates
  {
    if schedule != [] {
      var before := schedule[..|schedule| - 1];
      MandatesAreFixed(c, w, before);
      ExecIsolated(c, w, before);
      ApplyFixesMandates(c, Exec(c, w, before), schedule[|schedule| - 1]);
    }
  }
}
