/** The checks a step-up decision has to pass. */
module StepUpGuards {
  import opened Outcomes
  import opened Text

  datatype Status = Pending | Approved | Rejected | Expired

  datatype Challenge = Challenge(
    id: string, session: string, buyer: string, merchant: string, mandate: string, cartHash: string,
    total: int, reason: string, expiresAt: int, status: Status, createdAt: int)

  datatype Code = NotFound | UnauthorizedApprover | SelfApprovalBlocked | BindingMismatch
                | ChallengeExpired | AlreadyResolved | InvalidDecision

  /** The transaction a decision is made for, as the caller sees it now. */
  datatype Context = Context(session: string, buyer: string, merchant: string, cartHash: string, total: int)

  function ContextOf(c: Challenge): Context {
    Context(c.session, c.buyer, c.merchant, c.cartHash, c.total)
  }

  const AI_PREFIXES: set<string> := {"agent:", "ai:", "bot:", "llm:", "model:", "agent_", "assistant"}

  /** An identity as the guard compares it; `lower` is the language's case folding. */
  function Normal(lower: string -> string, id: string): string {
    lower(Strip(id))
  }

  predicate LooksAutomated(name: string) {
    (exists p :: p in AI_PREFIXES && p <= name) || name == "ai_agent" || name == "agent_assistant_01"
  }

  function VerifyApprover(lower: string -> string, approver: string, agent: string): Option<Code> {
    if Blank(approver) then Some(UnauthorizedApprover)
    else if agent != "" && Normal(lower, approver) == Normal(lower, agent) then Some(SelfApprovalBlocked)
    else if LooksAutomated(Normal(lower, approver)) then Some(SelfApprovalBlocked)
    else None
  }

  /** The approver is named, is not the agent, and is not named as agents are. */
  predicate Acceptable(lower: string -> string, approver: string, agent: string) {
    var name := lower(Strip(approver));
    && Strip(approver) != "" && (agent == "" || name != lower(Strip(agent))) && name != "ai_agent"
    && !("agent:" <= name) && !("ai:" <= name) && !("bot:" <= name) && !("llm:" <= name) && !("model:" <= name)
    && !("agent_" <= name) && !("assistant" <= name)
  }

  /** The guard lets exactly the acceptable approvers through; of the others only the unnamed are unauthorized. */
  lemma ApproverIff(lower: string -> string, approver: string, agent: string)
    ensures VerifyApprover(lower, approver, agent) ==
            if Acceptable(lower, approver, agent) then None
            else if Strip(approver) == "" then Some(UnauthorizedApprover)
            else Some(SelfApprovalBlocked)
  {
    var name := Normal(lower, approver);
    assert "agent:" in AI_PREFIXES && "ai:" in AI_PREFIXES && "bot:" in AI_PREFIXES && "llm:" in AI_PREFIXES;
    assert "model:" in AI_PREFIXES && "agent_" in AI_PREFIXES && "assistant" in AI_PREFIXES;
    assert "agent_" <= "agent_assistant_01";
  }

  function VerifyBinding(c: Challenge, x: Context): Option<Code> {
    if c.session != x.session then Some(BindingMismatch)
    else if c.buyer != x.buyer then Some(BindingMismatch)
    else if c.merchant != x.merchant then Some(BindingMismatch)
    else if c.cartHash != x.cartHash then Some(BindingMismatch)
    else if c.total != x.total then Some(BindingMismatch)
    else None
  }

  predicate PastExpiry(c: Challenge, now: int) {
    now > c.expiresAt
  }

  function VerifyActive(c: Challenge, now: int): Option<Code> {
    if c.status == Expired || PastExpiry(c, now) then Some(ChallengeExpired)
    else if c.status != Pending then Some(AlreadyResolved)
    else None
  }
}

/** The in-memory challenge manager, one operation at a time as its lock makes it. */
module StepUpRuns {
  import opened Outcomes
  import opened Text
  import opened StepUpGuards

  datatype Choice = Approve | Reject | Unknown

  datatype Decision = Decision(challenge: string, approver: string, choice: Choice)

  datatype Manager = Manager(challenges: map<string, Challenge>, index: map<string, string>)

  /** Each operation with the clock readings it makes; an attempt to resolve makes two. */
  datatype Event =
    | Create(id: string, x: Context, mandate: string, reason: string, ttl: int, now: int)
    | Look(id: string, now: int)
    | LookBySession(session: string, now: int)
    | Resolve(decision: Decision, x: Context, agent: string, now: int, later: int)

  function NewChallenge(id: string, x: Context, mandate: string, reason: string, ttl: int, now: int): Challenge {
    Challenge(id, x.session, x.buyer, x.merchant, mandate, x.cartHash, x.total, reason, now + ttl, Pending, now)
  }

  function Created(m: Manager, c: Challenge): Manager {
    Manager(m.challenges[c.id := c], m.index[c.session := c.id])
  }

  predicate Lapsed(m: Manager, id: string, now: int) {
    id in m.challenges && m.challenges[id].status == Pending && PastExpiry(m.challenges[id], now)
  }

  /** A lookup expires a pending challenge that it finds past its time. */
  function Looked(m: Manager, id: string, now: int): Manager {
    if Lapsed(m, id, now) then m.(challenges := m.challenges[id := m.challenges[id].(status := Expired)]) else m
  }

  function At(m: Manager, id: string): Option<Challenge> {
    if id in m.challenges then Some(m.challenges[id]) else None
  }

  function LookedBySession(m: Manager, session: string, now: int): (Manager, Option<Challenge>) {
    if session !in m.index || m.index[session] == "" then (m, None)
    else (Looked(m, m.index[session], now), At(Looked(m, m.index[session], now), m.index[session]))
  }

  /** The first check that fails, in the order they are made. */
  function Refusal(lower: string -> string, c: Challenge, e: Event): Option<Code>
    requires e.Resolve?
  {
    var approver := VerifyApprover(lower, e.decision.approver, e.agent);
    if approver.Some? then approver
    else
      var binding := VerifyBinding(c, e.x);
      if binding.Some? then binding
      else
        var active := VerifyActive(c, e.later);
        if active.Some? then active
        else if e.decision.choice == Unknown then Some(InvalidDecision)
        else None
  }

  function Resolved(lower: string -> string, m: Manager, e: Event): (Manager, Result<Challenge, Code>)
    requires e.Resolve?
  {
    var seen := Looked(m, e.decision.challenge, e.now);
    var c := At(seen, e.decision.challenge);
    if c.None? then (seen, Err(NotFound))
    else
      var refusal := Refusal(lower, c.value, e);
      if refusal.Some? then (seen, Err(refusal.value))
      else
        var next := c.value.(status := if e.decision.choice == Approve then Approved else Rejected);
        (seen.(challenges := seen.challenges[next.id := next]), Ok(next))
  }

  function Step(lower: string -> string, m: Manager, e: Event): Manager {
    match e
    case Create(id, x, mandate, reason, ttl, now) => Created(m, NewChallenge(id, x, mandate, reason, ttl, now))
    case Look(id, now) => Looked(m, id, now)
    case LookBySession(session, now) => LookedBySession(m, session, now).0
    case Resolve(_, _, _, _, _) => Resolved(lower, m, e).0
  }

  function Run(lower: string -> string, events: seq<Event>): Manager {
    if events == [] then Manager(map[], map[])
    else Step(lower, Run(lower, events[..|events| - 1]), events[|events| - 1])
  }

  /** Ids come from a random source and are taken not to repeat. */
  predicate FreshIds(lower: string -> string, events: seq<Event>) {
    forall i :: 0 <= i < |events| && events[i].Create? ==> events[i].id !in Run(lower, events[..i]).challenges
  }

  /** Event i of the run is a decision that resolve_decision accepts. */
  predicate Decides(lower: string -> string, events: seq<Event>, i: nat, id: string)
    requires i < |events|
  {
    events[i].Resolve? && events[i].decision.challenge == id
      && Resolved(lower, Run(lower, events[..i]), events[i]).1.Ok?
  }

  // ---------------------------------------------------------------------------------------------
  // One step
  // ---------------------------------------------------------------------------------------------

  predicate Indexed(m: Manager) {
    && (forall id :: id in m.challenges ==> m.challenges[id].id == id)
    && (forall s :: s in m.index ==> m.index[s] in m.challenges && m.challenges[m.index[s]].session == s)
  }

  /** A challenge changes in its status only, and only while it is pending. */
  predicate Evolves(a: Challenge, b: Challenge) {
    b == a || (a.status == Pending && b.status != Pending && b == a.(status := b.status))
  }

  predicate Allowed(lower: string -> string, m: Manager, e: Event) {
    e.Create? ==> e.id !in m.challenges
  }

  /** Every challenge of `m` is still there, evolved at most. */
  predicate Succeeds(m: Manager, next: Manager) {
    forall id :: id in m.challenges ==> id in next.challenges && Evolves(m.challenges[id], next.challenges[id])
  }

  lemma LookEvolves(m: Manager, id: string, now: int)
    requires Indexed(m)
    ensures Indexed(Looked(m, id, now)) && Succeeds(m, Looked(m, id, now))
  {
  }

  lemma ResolveEvolves(lower: string -> string, m: Manager, e: Event)
    requires Indexed(m) && e.Resolve?
    ensures Indexed(Resolved(lower, m, e).0) && Succeeds(m, Resolved(lower, m, e).0)
  {
    LookEvolves(m, e.decision.challenge, e.now);
  }

  lemma StepEvolves(lower: string -> string, m: Manager, e: Event)
    requires Indexed(m) && Allowed(lower, m, e)
    ensures Indexed(Step(lower, m, e)) && Succeeds(m, Step(lower, m, e))
  {
    match e
    case Create(_, _, _, _, _, _) =>
    case Look(id, now) => LookEvolves(m, id, now);
    case LookBySession(session, now) =>
      if session in m.index {
        LookEvolves(m, m.index[session], now);
      }
    case Resolve(_, _, _, _, _) => ResolveEvolves(lower, m, e);
  }

  lemma LookChanges(m: Manager, id: string, now: int, other: string)
    requires Indexed(m) && other in m.challenges
    ensures var d := Looked(m, id, now).challenges[other];
            d == m.challenges[other] || (d.status == Expired && PastExpiry(m.challenges[other], now))
  {
  }

  lemma ResolveChanges(lower: string -> string, m: Manager, e: Event, id: string)
    requires Indexed(m) && e.Resolve? && id in m.challenges
    ensures var c := m.challenges[id];
            var d := Resolved(lower, m, e).0.challenges[id];
            || d == c
            || (d.status == Expired && PastExpiry(c, e.now))
            || (e.decision.challenge == id && Resolved(lower, m, e).1 == Ok(d)
                && d.status == if e.decision.choice == Approve then Approved else Rejected)
  {
    LookChanges(m, e.decision.challenge, e.now, id);
  }

  /** Why a challenge leaves PENDING: a decision that was accepted, or expiry, found at a lookup. */
  lemma WhyAChallengeChanges(lower: string -> string, m: Manager, e: Event, id: string)
    requires Indexed(m) && Allowed(lower, m, e) && id in m.challenges
    ensures var c := m.challenges[id];
            var d := Step(lower, m, e).challenges[id];
            || d == c
            || (d.status == Expired && PastExpiry(c, e.now))
            || (e.Resolve? && e.decision.challenge == id && Resolved(lower, m, e).1 == Ok(d)
                && d.status == if e.decision.choice == Approve then Approved else Rejected)
  {
    match e
    case Look(other, now) => LookChanges(m, other, now, id);
    case LookBySession(session, now) =>
      if session in m.index {
        LookChanges(m, m.index[session], now, id);
      }
    case Resolve(_, _, _, _, _) => ResolveChanges(lower, m, e, id);
    case Create(_, _, _, _, _, _) =>
  }

  /** The session lookup finds the session's latest challenge, which need not be active any more. */
  lemma SessionLookupIsActiveIff(m: Manager, session: string, now: int)
    requires Indexed(m) && session in m.index && m.index[session] != ""
    ensures var (next, found) := LookedBySession(m, session, now);
            var c := m.challenges[m.index[session]];
            && found.Some? && found.value.session == session && found.value.id == m.index[session]
            && (found.value.status == Pending <==> c.status == Pending && now <= c.expiresAt)
  {
  }

  /** The transaction is the one the challenge was created for, to the last field. */
  predicate Bound(c: Challenge, x: Context) {
    && c.session == x.session && c.buyer == x.buyer && c.merchant == x.merchant
    && c.cartHash == x.cartHash && c.total == x.total
  }

  /**
    A decision is accepted exactly when the challenge exists, is pending and not past its time at either
    clock reading, the transaction is the one it was created for, and the approver is acceptable.
   */
  lemma AcceptedIff(lower: string -> string, m: Manager, e: Event)
    requires Indexed(m) && e.Resolve?
    ensures Resolved(lower, m, e).1.Ok? <==>
            && e.decision.challenge in m.challenges
            && var c := m.challenges[e.decision.challenge];
            && c.status == Pending && e.now <= c.expiresAt && e.later <= c.expiresAt
            && Bound(c, e.x) && ContextOf(c) == e.x
            && Acceptable(lower, e.decision.approver, e.agent)
            && e.decision.choice != Unknown
  {
    ApproverIff(lower, e.decision.approver, e.agent);
  }

  /** The answer to every decision: the first check it fails, or the challenge with the status it decides. */
  lemma AnswerIs(lower: string -> string, m: Manager, e: Event)
    requires Indexed(m) && e.Resolve?
    ensures var (next, answer) := Resolved(lower, m, e);
            if e.decision.challenge !in m.challenges then answer == Err(NotFound) && next == m
            else
              var c := m.challenges[e.decision.challenge];
              var expired := c.status == Expired || (c.status == Pending && e.now > c.expiresAt)
                             || e.later > c.expiresAt;
              if Strip(e.decision.approver) == "" then answer == Err(UnauthorizedApprover)
              else if !Acceptable(lower, e.decision.approver, e.agent) then answer == Err(SelfApprovalBlocked)
              else if !Bound(c, e.x) then answer == Err(BindingMismatch)
              else if expired then answer == Err(ChallengeExpired)
              else if c.status != Pending then answer == Err(AlreadyResolved)
              else if e.decision.choice == Unknown then answer == Err(InvalidDecision)
              else
                && answer == Ok(c.(status := if e.decision.choice == Approve then Approved else Rejected))
                && next == m.(challenges := m.challenges[e.decision.challenge := answer.value])
  {
    ApproverIff(lower, e.decision.approver, e.agent);
  }

  // ---------------------------------------------------------------------------------------------
  // Whole runs
  // ---------------------------------------------------------------------------------------------

  lemma FreshSoFar(lower: string -> string, events: seq<Event>, n: nat)
    requires FreshIds(lower, events) && n <= |events|
    ensures FreshIds(lower, events[..n])
  {
    forall i | 0 <= i < n && events[..n][i].Create?
      ensures events[..n][i].id !in Run(lower, events[..n][..i]).challenges {
      assert events[..n][..i] == events[..i];
    }
  }

  lemma NextStep(lower: string -> string, events: seq<Event>, i: nat)
    requires i < |events|
    ensures Run(lower, events[..i + 1]) == Step(lower, Run(lower, events[..i]), events[i])
  {
    assert events[..i + 1][..i] == events[..i];
  }

  /** Every index entry points to a stored challenge of its session, in every run. */
  lemma {:induction false} IndexOverRuns(lower: string -> string, events: seq<Event>)
    requires FreshIds(lower, events)
    ensures Indexed(Run(lower, events))
  {
    if events != [] {
      var n := |events| - 1;
      FreshSoFar(lower, events, n);
      IndexOverRuns(lower, events[..n]);
      assert events[n].Create? ==> events[n].id !in Run(lower, events[..n]).challenges;
      StepEvolves(lower, Run(lower, events[..n]), events[n]);
    }
  }

  /** A challenge stays, its fields never change, and its status changes at most once, away from PENDING. */
  lemma {:induction false} ChallengesEvolve(lower: string -> string, events: seq<Event>, i: nat, id: string)
    requires FreshIds(lower, events) && i <= |events| && id in Run(lower, events[..i]).challenges
    ensures id in Run(lower, events).challenges
    ensures Evolves(Run(lower, events[..i]).challenges[id], Run(lower, events).challenges[id])
  {
    if i == |events| {
      assert events[..i] == events;
    } else {
      var n := |events| - 1;
      FreshSoFar(lower, events, n);
      assert events[..n][..i] == events[..i];
      ChallengesEvolve(lower, events[..n], i, id);
      LastStepSucceeds(lower, events);
    }
  }

  lemma LastStepSucceeds(lower: string -> string, events: seq<Event>)
    requires FreshIds(lower, events) && events != []
    ensures Succeeds(Run(lower, events[..|events| - 1]), Run(lower, events))
  {
    var n := |events| - 1;
    FreshSoFar(lower, events, n);
    IndexOverRuns(lower, events[..n]);
    assert events[n].Create? ==> events[n].id !in Run(lower, events[..n]).challenges;
    StepEvolves(lower, Run(lower, events[..n]), events[n]);
  }

  lemma DecisionSettles(lower: string -> string, events: seq<Event>, i: nat, id: string)
    requires FreshIds(lower, events) && i < |events| && Decides(lower, events, i, id)
    ensures id in Run(lower, events[..i]).challenges && Run(lower, events[..i]).challenges[id].status == Pending
    ensures id in Run(lower, events[..i + 1]).challenges
    ensures Run(lower, events[..i + 1]).challenges[id].status in {Approved, Rejected}
  {
    NextStep(lower, events, i);
    FreshSoFar(lower, events, i);
    IndexOverRuns(lower, events[..i]);
    AcceptedIff(lower, Run(lower, events[..i]), events[i]);
  }

  lemma SettledFromThenOn(lower: string -> string, events: seq<Event>, i: nat, j: nat, id: string)
    requires FreshIds(lower, events) && i < j <= |events| && Decides(lower, events, i, id)
    ensures id in Run(lower, events[..j]).challenges
    ensures Run(lower, events[..j]).challenges[id].status != Pending
  {
    DecisionSettles(lower, events, i, id);
    FreshSoFar(lower, events, j);
    var before := events[..j];
    assert before[..i + 1] == events[..i + 1] && before[..j] == before;
    ChallengesEvolve(lower, before, i + 1, id);
  }

  /** At most one decision is accepted for a challenge in a run. */
  lemma DecidedAtMostOnce(lower: string -> string, events: seq<Event>, i: nat, j: nat, id: string)
    requires FreshIds(lower, events) && i < |events| && j < |events|
    requires Decides(lower, events, i, id) && Decides(lower, events, j, id)
    ensures i == j
  {
    DecisionSettles(lower, events, i, id);
    DecisionSettles(lower, events, j, id);
    if i < j {
      SettledFromThenOn(lower, events, i, j, id);
    } else if j < i {
      SettledFromThenOn(lower, events, j, i, id);
    }
  }

  /** Event i approved or rejected this very challenge, every check passed. */
  predicate ProperlyDecided(lower: string -> string, e: Event, c: Challenge) {
    && e.Resolve? && e.decision.challenge == c.id
    && e.decision.choice == (if c.status == Approved then Approve else Reject)
    && Bound(c, e.x) && e.now <= c.expiresAt && e.later <= c.expiresAt
    && Acceptable(lower, e.decision.approver, e.agent)
  }

  lemma ProperDecision(lower: string -> string, m: Manager, e: Event, id: string)
    requires Indexed(m) && Allowed(lower, m, e) && e.Resolve? && e.decision.challenge == id
    requires Resolved(lower, m, e).1.Ok? && id in Step(lower, m, e).challenges
    ensures ProperlyDecided(lower, e, Step(lower, m, e).challenges[id])
  {
    AcceptedIff(lower, m, e);
  }

  /**
    An approved or rejected challenge was decided in this run, by a decision bound to exactly this
    challenge's transaction, made by an acceptable approver no later than its expiry.
   */
  lemma {:induction false} DecidedProperly(lower: string -> string, events: seq<Event>, id: string) returns (i: nat)
    requires FreshIds(lower, events) && id in Run(lower, events).challenges
    requires Run(lower, events).challenges[id].status in {Approved, Rejected}
    ensures i < |events| && Decides(lower, events, i, id)
    ensures ProperlyDecided(lower, events[i], Run(lower, events).challenges[id])
  {
    var n := |events| - 1;
    var m, e := Run(lower, events[..n]), events[n];
    FreshSoFar(lower, events, n);
    IndexOverRuns(lower, events[..n]);
    assert Allowed(lower, m, e);
    if id !in m.challenges || Step(lower, m, e).challenges[id] != m.challenges[id] {
      if id in m.challenges {
        WhyAChallengeChanges(lower, m, e, id);
      }
      i := n;
      ProperDecision(lower, m, e, id);
    } else {
      i := DecidedProperly(lower, events[..n], id);
      assert events[..n][..i] == events[..i];
    }
  }

  lemma SomeoneIsAcceptable(lower: string -> string)
    requires lower("u") == "u"
    ensures VerifyApprover(lower, "u", "") == None
  {
    assert Strip("u") == "u";
    assert forall p :: p in AI_PREFIXES ==> |p| > 1;
  }

  /** A challenge is created and rejected, and its session's lookup still finds it. */
  lemma SessionLookupFindsRejected(lower: string -> string) returns (events: seq<Event>)
    requires lower("u") == "u"
    ensures FreshIds(lower, events)
    ensures var found := LookedBySession(Run(lower, events), "s", 2).1;
            found.Some? && found.value.session == "s" && found.value.status == Rejected
  {
    var x := Context("s", "b", "m", "h", 1);
    var create, reject := Create("c", x, "n", "r", 10, 0), Resolve(Decision("c", "u", Reject), x, "", 1, 1);
    events := [create, reject];
    assert events[..1] == [create] && events[..0] == [] && [create][..0] == [];
    var c := NewChallenge("c", x, "n", "r", 10, 0);
    assert Run(lower, [create]) == Manager(map["c" := c], map["s" := "c"]);
    SomeoneIsAcceptable(lower);
    assert Resolved(lower, Run(lower, [create]), reject).1 == Ok(c.(status := Rejected));
    assert Run(lower, events).challenges["c"] == c.(status := Rejected);
  }
}

/** The manager as an object over the two dictionaries it keeps. */
module StepUpManagers {
  import opened Outcomes
  import opened StepUpGuards
  import opened StepUpRuns

  class AgentStepUpManager {
    var challenges: map<string, Challenge>
    var index: map<string, string>
    const lower: string -> string

    function State(): Manager
      reads this
    {
      Manager(challenges, index)
    }

    constructor (lower: string -> string)
      ensures State() == Manager(map[], map[]) && this.lower == lower
    {
      challenges, index := map[], map[];
      this.lower := lower;
    }

    method CreateChallenge(id: string, x: Context, mandate: string, reason: string, ttl: int, now: int)
      returns (c: Challenge)
      modifies this
      ensures State() == Step(lower, old(State()), Create(id, x, mandate, reason, ttl, now))
      ensures c == Challenge(id, x.session, x.buyer, x.merchant, mandate, x.cartHash, x.total, reason, now + ttl,
                             Pending, now)
      ensures challenges == old(challenges)[id := c] && index == old(index)[x.session := id]
    {
      c := Challenge(id, x.session, x.buyer, x.merchant, mandate, x.cartHash, x.total, reason, now + ttl, Pending, now);
      challenges := challenges[id := c];
      index := index[x.session := id];
    }

    method GetChallenge(id: string, now: int) returns (c: Option<Challenge>)
      modifies this
      ensures State() == Step(lower, old(State()), Look(id, now)) && c == At(State(), id)
      ensures id !in old(challenges) ==> c == None && challenges == old(challenges)
      ensures id in old(challenges) ==>
                var was := old(challenges[id]);
                && c == Some(if was.status == Pending && now > was.expiresAt then was.(status := Expired) else was)
                && challenges == old(challenges)[id := c.value]
    {
      if id !in challenges {
        return None;
      }
      var ch := challenges[id];
      if ch.status == Pending && now > ch.expiresAt {
        var expired := ch.(status := Expired);
        challenges := challenges[id := expired];
        return Some(expired);
      }
      return Some(ch);
    }

    method GetActiveChallengeForSession(session: string, now: int) returns (c: Option<Challenge>)
      modifies this
      ensures (State(), c) == LookedBySession(old(State()), session, now)
    {
      if session !in index || index[session] == "" {
        return None;
      }
      c := GetChallenge(index[session], now);
    }

    method ResolveDecision(d: Decision, x: Context, agent: string, now: int, later: int)
      returns (r: Result<Challenge, Code>)
      modifies this
      ensures (State(), r) == Resolved(lower, old(State()), Resolve(d, x, agent, now, later))
    {
      var ch := GetChallenge(d.challenge, now);
      if ch.None? {
        return Err(NotFound);
      }
      var refusal := VerifyApprover(lower, d.approver, agent);
      if refusal.Some? {
        return Err(refusal.value);
      }
      refusal := VerifyBinding(ch.value, x);
      if refusal.Some? {
        return Err(refusal.value);
      }
      refusal := VerifyActive(ch.value, later);
      if refusal.Some? {
        return Err(refusal.value);
      }
      if d.choice == Unknown {
        return Err(InvalidDecision);
      }
      var next := ch.value.(status := if d.choice == Approve then Approved else Rejected);
      challenges := challenges[next.id := next];
      return Ok(next);
    }
  }
}
