/**
  Workers that use the database through units of work: which statements a unit of work lets through, and
  what follows for whole runs when no error is caught inside one.
 */
module UnitOfWorkRuns {
  import opened Outcomes
  import opened Rows
  import opened Transactions
  import opened Store
  import opened UnitsOfWork
  import AuditSteps
  import ChallengeRuns

  /** Only the flags of a unit of work matter here; what its session holds is in the world. */
  type Unit = Uow<()>

  datatype Call =
    | Send(statement: Store.Action)
    | CommitUnit(flushFails: bool, commitFails: bool, rollbackFails: bool)
    | RollbackUnit(fails: bool)
    | Leave(rollbackFails: bool)

  /** `failing`: workers in whose unit of work an error is on its way out. */
  datatype System = System(world: World, units: map<Worker, Unit>, failing: set<Worker>)

  function UnitOf(s: System, x: Worker): Unit {
    if x in s.units then s.units[x] else UnitsOfWork.Entered(())
  }

  /** The unit of work after the call. */
  function After(u: Unit, call: Call, raised: bool): Unit {
    match call
    case Send(_) => u
    case CommitUnit(ff, cf, rf) => CommitSpec(u, ff, cf, rf).0
    case RollbackUnit(fails) => RollbackSpec(u, fails)
    case Leave(rf) => ExitSpec(u, raised, rf)
  }

  predicate IsStatement(a: Store.Action) {
    a != Store.Commit && a != Store.Abort
  }

  /**
    What reaches the database: statements of a usable unit of work, a commit that returns normally, and an
    abort when the session is rolled back, or closed at the end with whatever it still holds.
   */
  function Emits(u: Unit, call: Call): seq<Store.Action> {
    match call
    case Send(a) => if Usable(u) && IsStatement(a) then [a] else []
    case CommitUnit(ff, cf, rf) =>
      var (next, error) := CommitSpec(u, ff, cf, rf);
      if error.None? then [Store.Commit] else if next != u then [Store.Abort] else []
    case RollbackUnit(fails) => if RollbackSpec(u, fails) != u then [Store.Abort] else []
    case Leave(_) => [Store.Abort]
  }

  /**
    The transaction is committed exactly by a commit that returns normally, and aborted exactly by a commit
    that the session refuses or by a rollback, if the session then rolls back, and at the end in any case.
   */
  lemma EmitsIff(u: Unit, call: Call)
    ensures Store.Commit in Emits(u, call) <==>
            && call.CommitUnit? && !u.closed && u.active && u.session && !u.committed && !u.rolledBack
            && !call.flushFails && !call.commitFails
    ensures Store.Abort in Emits(u, call) <==>
            || call.Leave?
            || (call.RollbackUnit? && !u.closed && u.session && !u.rolledBack && !call.fails)
            || (call.CommitUnit? && !u.closed && u.active && u.session && !u.committed && !u.rolledBack
                && (call.flushFails || call.commitFails) && !call.rollbackFails)
    ensures forall a :: a in Emits(u, call) && a !in {Store.Commit, Store.Abort} ==>
              call == Send(a) && !u.closed && u.active && u.session
    ensures call.Send? && IsStatement(call.statement) && !u.closed && u.active && u.session ==>
              Emits(u, call) == [call.statement]
  {
  }

  function Events(x: Worker, actions: seq<Store.Action>): seq<Event> {
    seq(|actions|, i requires 0 <= i < |actions| => Event(x, actions[i]))
  }

  ghost function Step(c: AuditSteps.Codec, s: System, x: Worker, call: Call): System {
    var u := UnitOf(s, x);
    var w := Exec(c, s.world, Events(x, Emits(u, call)));
    if call.Leave? then System(w, s.units - {x}, s.failing - {x})
    else
      var fails := (call.CommitUnit? && CommitSpec(u, call.flushFails, call.commitFails, call.rollbackFails).1.Some?)
                   || TxnOf(w, x).raised;
      System(w, s.units[x := After(u, call, false)], if fails then s.failing + {x} else s.failing)
  }

  ghost function Run(c: AuditSteps.Codec, w: World, calls: seq<(Worker, Call)>): System {
    if calls == [] then System(w, map[], {})
    else Step(c, Run(c, w, calls[..|calls| - 1]), calls[|calls| - 1].0, calls[|calls| - 1].1)
  }

  /** The statements of a run, in the order in which they reach the database. */
  ghost function Schedule(c: AuditSteps.Codec, w: World, calls: seq<(Worker, Call)>): seq<Event> {
    if calls == [] then []
    else
      var (x, call) := calls[|calls| - 1];
      Schedule(c, w, calls[..|calls| - 1]) + Events(x, Emits(UnitOf(Run(c, w, calls[..|calls| - 1]), x), call))
  }

  /** No error is caught inside a unit of work: after one, the worker's next call is to leave it. */
  ghost predicate Uncaught(c: AuditSteps.Codec, w: World, calls: seq<(Worker, Call)>) {
    forall i | 0 <= i < |calls| && calls[i].0 in Run(c, w, calls[..i]).failing :: calls[i].1.Leave?
  }

  lemma UncaughtSoFar(c: AuditSteps.Codec, w: World, calls: seq<(Worker, Call)>)
    requires Uncaught(c, w, calls) && calls != []
    ensures Uncaught(c, w, calls[..|calls| - 1])
  {
    var before := calls[..|calls| - 1];
    forall i | 0 <= i < |before| ensures before[..i] == calls[..i] {
    }
  }

  lemma {:induction false} WorldIsScheduled(c: AuditSteps.Codec, w: World, calls: seq<(Worker, Call)>)
    ensures Run(c, w, calls).world == Exec(c, w, Schedule(c, w, calls))
  {
    if calls != [] {
      var before := calls[..|calls| - 1];
      WorldIsScheduled(c, w, before);
      var (x, call) := calls[|calls| - 1];
      ExecConcat(c, w, Schedule(c, w, before), Events(x, Emits(UnitOf(Run(c, w, before), x), call)));
    }
  }

  /** A transaction is only marked while its worker's error is on its way out. */
  ghost predicate MarksAreFailing(s: System) {
    forall x <- s.world.open :: s.world.open[x].raised ==> x in s.failing
  }

  lemma OneEvent(c: AuditSteps.Codec, w: World, e: Event)
    ensures Exec(c, w, [e]) == Apply(c, w, e) && Exec(c, w, []) == w
  {
    assert [e][..0] == [];
  }

  lemma EmitsAtMostOne(u: Unit, call: Call)
    ensures |Emits(u, call)| <= 1
    ensures call.Leave? ==> Emits(u, call) == [Store.Abort]
  {
  }

  lemma OthersUnmarked(c: AuditSteps.Codec, w: World, x: Worker, a: Store.Action, y: Worker)
    requires y != x
    ensures TxnOf(Apply(c, w, Event(x, a)), y) == TxnOf(w, y)
    ensures y in Apply(c, w, Event(x, a)).open <==> y in w.open
  {
  }

  lemma StepKeepsMarks(c: AuditSteps.Codec, s: System, x: Worker, call: Call)
    requires MarksAreFailing(s) && (x in s.failing ==> call.Leave?)
    ensures MarksAreFailing(Step(c, s, x, call))
  {
    var u := UnitOf(s, x);
    var actions := Emits(u, call);
    EmitsAtMostOne(u, call);
    var next := Step(c, s, x, call);
    if actions == [] {
      assert Events(x, actions) == [];
    } else {
      assert Events(x, actions) == [Event(x, actions[0])];
      OneEvent(c, s.world, Event(x, actions[0]));
      forall y | y in next.world.open && next.world.open[y].raised ensures y in next.failing {
        if y != x {
          OthersUnmarked(c, s.world, x, actions[0], y);
        }
      }
    }
  }

  lemma {:induction false} MarksOverRuns(c: AuditSteps.Codec, w: World, calls: seq<(Worker, Call)>)
    requires Quiet(w) && Uncaught(c, w, calls)
    ensures MarksAreFailing(Run(c, w, calls))
  {
    if calls != [] {
      UncaughtSoFar(c, w, calls);
      MarksOverRuns(c, w, calls[..|calls| - 1]);
      assert calls[|calls| - 1].0 in Run(c, w, calls[..|calls| - 1]).failing ==> calls[|calls| - 1].1.Leave?;
      StepKeepsMarks(c, Run(c, w, calls[..|calls| - 1]), calls[|calls| - 1].0, calls[|calls| - 1].1);
    }
  }

  lemma DisciplineGrows(c: AuditSteps.Codec, w: World, schedule: seq<Event>, more: seq<Event>)
    requires ChallengeRuns.Disciplined(c, w, schedule) && |more| <= 1
    requires more != [] && more[0].action == Store.Commit ==> !TxnOf(Exec(c, w, schedule), more[0].worker).raised
    ensures ChallengeRuns.Disciplined(c, w, schedule + more)
  {
    forall i | 0 <= i < |schedule + more| && (schedule + more)[i].action == Store.Commit
      ensures !TxnOf(Exec(c, w, (schedule + more)[..i]), (schedule + more)[i].worker).raised
    {
      if i < |schedule| {
        assert (schedule + more)[..i] == schedule[..i];
      } else {
        assert (schedule + more)[..i] == schedule;
      }
    }
  }

  /**
    Units of work out of which every error is let through never commit a transaction in which a call raised:
    this is the discipline that the theorems about step-up challenges ask of a schedule.
   */
  lemma {:induction false} UncaughtErrorsAreDisciplined(c: AuditSteps.Codec, w: World, calls: seq<(Worker, Call)>)
    requires Quiet(w) && Uncaught(c, w, calls)
    ensures ChallengeRuns.Disciplined(c, w, Schedule(c, w, calls))
  {
    if calls != [] {
      var before := calls[..|calls| - 1];
      var (x, call) := calls[|calls| - 1];
      UncaughtSoFar(c, w, calls);
      UncaughtErrorsAreDisciplined(c, w, before);
      MarksOverRuns(c, w, before);
      WorldIsScheduled(c, w, before);
      var u := UnitOf(Run(c, w, before), x);
      EmitsAtMostOne(u, call);
      assert x in Run(c, w, before).failing ==> call.Leave?;
      DisciplineGrows(c, w, Schedule(c, w, before), Events(x, Emits(u, call)));
    }
  }

  /** Under units of work that let errors through, every durable challenge is decided at most once, and in time. */
  lemma ChallengesUnderUnitsOfWork(c: AuditSteps.Codec, w: World, calls: seq<(Worker, Call)>)
    requires Quiet(w) && ChallengeRuns.ChallengeInv(w) && Uncaught(c, w, calls)
    ensures var after := Run(c, w, calls).world.tables.challenges;
            && ChallengeRuns.AllInTime(after)
            && forall id <- w.tables.challenges ::
               id in after && ChallengeRuns.Evolves(w.tables.challenges[id], after[id])
  {
    UncaughtErrorsAreDisciplined(c, w, calls);
    WorldIsScheduled(c, w, calls);
    ChallengeRuns.DecidedOnceOverRuns(c, w, Schedule(c, w, calls));
  }
}
