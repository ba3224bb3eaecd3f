/**
  The tool registry under many threads. A call looks its tool up, is charged against the quota of its
  session, has its input validated, and only then runs the tool; other threads may act in between.
  Whether a name is well formed, whether an input is safe and what a tool returns are parameters.
 */
module ToolQuotas {
  import opened Outcomes

  datatype Definition = Definition(
    name: string, version: string, capabilities: set<string>, enabled: bool, blocked: bool, maxInvocations: int)

  const FORBIDDEN: set<string> := {
    "payment.execute", "payment.authorize", "mandate.override", "budget.override", "nonce.override",
    "policy.override", "admin.override", "arbitrary.http", "arbitrary.python", "arbitrary.shell", "arbitrary.database"
  }

  datatype Code = AlreadyRegistered | ForbiddenCapability | InvalidRequest | UnknownTool | InvalidVersion
                | ToolDisabled | CapabilityDenied | InvocationLimit | InputRejected

  type Tools = map<string, Definition>
  type Quota = (string, string)

  function Key(name: string, version: string): string {
    name + ":" + version
  }

  /** A falsy version is no version. */
  predicate Given(version: Option<string>) {
    version.Some? && version.value != ""
  }

  function Registered(tools: Tools, d: Definition): Result<Tools, Code> {
    if Key(d.name, d.version) in tools || d.name in tools then Err(AlreadyRegistered)
    else if d.capabilities * FORBIDDEN != {} then Err(ForbiddenCapability)
    else Ok(tools[d.name := d][Key(d.name, d.version) := d])
  }

  function Unregistered(tools: Tools, name: string, version: Option<string>): Tools {
    (if Given(version) then tools - {Key(name, version.value)} else tools) - {name}
  }

  function Get(tools: Tools, name: string, version: Option<string>): Option<Definition> {
    if Given(version) && Key(name, version.value) in tools then Some(tools[Key(name, version.value)])
    else if name in tools then Some(tools[name])
    else None
  }

  function Resolve(tools: Tools, name: string, version: Option<string>): Result<Definition, Code> {
    var tool := Get(tools, name, version);
    if tool.None? then Err(UnknownTool)
    else if Given(version) && tool.value.version != version.value then Err(InvalidVersion)
    else Ok(tool.value)
  }

  /** What a caller asks for; `wellFormed` and `safe` are the verdicts of the request validator. */
  datatype Request = Request(
    session: string, name: string, version: Option<string>, policy: set<string>, wellFormed: bool, safe: bool)

  function Authorize(tools: Tools, r: Request): Result<Definition, Code> {
    if !r.wellFormed then Err(InvalidRequest)
    else
      var tool := Resolve(tools, r.name, r.version);
      if tool.Err? then tool
      else if !tool.value.enabled || tool.value.blocked then Err(ToolDisabled)
      else if !(tool.value.capabilities <= r.policy) then Err(CapabilityDenied)
      else tool
  }

  /** The key a request is answered under: name and version if that key is known, else the name alone. */
  function KeyFor(tools: Tools, r: Request): string {
    if r.version.Some? && r.version.value != "" && r.name + ":" + r.version.value in tools
    then r.name + ":" + r.version.value
    else r.name
  }

  /**
    A request is admitted exactly if it is well formed, its key is known, the tool there has the version asked
    for, if one is, is enabled and not blocked, and needs no capability outside the policy; the answer is that
    tool, and otherwise the first of these that fails.
   */
  lemma AdmittedIff(tools: Tools, r: Request)
    ensures var (key, answer) := (KeyFor(tools, r), Authorize(tools, r));
            if !r.wellFormed then answer == Err(InvalidRequest)
            else if key !in tools then answer == Err(UnknownTool)
            else
              var d := tools[key];
              if r.version.Some? && r.version.value != "" && d.version != r.version.value
              then answer == Err(InvalidVersion)
              else if !d.enabled || d.blocked then answer == Err(ToolDisabled)
              else if exists c :: c in d.capabilities && c !in r.policy then answer == Err(CapabilityDenied)
              else answer == Ok(d)
  {
  }

  // ---------------------------------------------------------------------------------------------
  // Threads
  // ---------------------------------------------------------------------------------------------

  type Thread = nat

  datatype Call = Call(request: Request, tool: Definition, charged: bool)

  datatype Entry = Entry(request: Request, tool: Definition, ran: bool)

  /** The registry, the calls under way, and what has happened: tools registered, charged calls finished. */
  datatype Registry = Registry(
    tools: Tools, counts: map<Quota, nat>, calls: map<Thread, Call>, log: seq<Entry>, registered: seq<Definition>)

  const EMPTY := Registry(map[], map[], map[], [], [])

  datatype Event =
    | Register(tool: Definition)
    | Unregister(name: string, version: Option<string>)
    | Ask(thread: Thread, request: Request)
    | Charge(thread: Thread)
    | Finish(thread: Thread)

  function QuotaOf(c: Call): Quota {
    (c.request.session, c.tool.name)
  }

  function CountOf(counts: map<Quota, nat>, q: Quota): nat {
    if q in counts then counts[q] else 0
  }

  function ChargeCall(s: Registry, t: Thread): Registry
    requires t in s.calls && !s.calls[t].charged
  {
    var c := s.calls[t];
    var n := CountOf(s.counts, QuotaOf(c));
    if n >= c.tool.maxInvocations then s.(calls := s.calls - {t})
    else s.(counts := s.counts[QuotaOf(c) := n + 1], calls := s.calls[t := c.(charged := true)])
  }

  function FinishCall(s: Registry, t: Thread): Registry
    requires t in s.calls && s.calls[t].charged
  {
    var c := s.calls[t];
    s.(calls := s.calls - {t}, log := s.log + [Entry(c.request, c.tool, c.request.safe)])
  }

  function Step(s: Registry, e: Event): Registry {
    match e
    case Register(d) =>
      var next := Registered(s.tools, d);
      if next.Ok? then s.(tools := next.value, registered := s.registered + [d]) else s
    case Unregister(name, version) => s.(tools := Unregistered(s.tools, name, version))
    case Ask(t, r) =>
      var tool := Authorize(s.tools, r);
      if t in s.calls || tool.Err? then s else s.(calls := s.calls[t := Call(r, tool.value, false)])
    case Charge(t) => if t in s.calls && !s.calls[t].charged then ChargeCall(s, t) else s
    case Finish(t) => if t in s.calls && s.calls[t].charged then FinishCall(s, t) else s
  }

  function Run(events: seq<Event>): Registry {
    if events == [] then EMPTY else Step(Run(events[..|events| - 1]), events[|events| - 1])
  }

  // ---------------------------------------------------------------------------------------------
  // Quotas
  // ---------------------------------------------------------------------------------------------

  /** Finished calls charged to a quota: those that ran the tool, or those whose input was rejected. */
  function Finished(log: seq<Entry>, q: Quota, ran: bool): nat {
    if log == [] then 0
    else
      var e := log[|log| - 1];
      Finished(log[..|log| - 1], q, ran) + if (e.request.session, e.tool.name) == q && e.ran == ran then 1 else 0
  }

  /** Threads that were charged and have neither run nor been rejected yet. */
  function Pending(calls: map<Thread, Call>, q: Quota): set<Thread> {
    set t | t in calls && calls[t].charged && QuotaOf(calls[t]) == q
  }

  predicate Balanced(s: Registry, q: Quota) {
    CountOf(s.counts, q) == Finished(s.log, q, true) + Finished(s.log, q, false) + |Pending(s.calls, q)|
  }

  /** The quota never exceeds the largest limit a tool of that name was registered with. */
  predicate WithinLimit(s: Registry, q: Quota) {
    CountOf(s.counts, q) > 0 ==> exists d ::
      d in s.registered && d.name == q.1 && CountOf(s.counts, q) <= d.maxInvocations
  }

  predicate Permitted(r: Request, d: Definition) {
    r.wellFormed && d.enabled && !d.blocked && d.capabilities <= r.policy
  }

  predicate Traced(s: Registry) {
    && (forall k :: k in s.tools ==>
        s.tools[k] in s.registered && k in {s.tools[k].name, Key(s.tools[k].name, s.tools[k].version)})
    && (forall t :: t in s.calls ==> s.calls[t].tool in s.registered && Permitted(s.calls[t].request, s.calls[t].tool))
    && (forall e :: e in s.log ==> e.tool in s.registered && Permitted(e.request, e.tool) && (e.ran ==> e.request.safe))
    && (forall d :: d in s.registered ==> d.capabilities * FORBIDDEN == {})
  }

  lemma PendingAfterCharge(calls: map<Thread, Call>, t: Thread, q: Quota)
    requires t in calls && !calls[t].charged
    ensures |Pending(calls[t := calls[t].(charged := true)], q)| ==
            |Pending(calls, q)| + if QuotaOf(calls[t]) == q then 1 else 0
    ensures Pending(calls - {t}, q) == Pending(calls, q)
  {
    var next := calls[t := calls[t].(charged := true)];
    assert Pending(next, q) == Pending(calls, q) + if QuotaOf(calls[t]) == q then {t} else {};
  }

  lemma ChargeKeepsBalance(s: Registry, t: Thread, q: Quota)
    requires t in s.calls && !s.calls[t].charged && Balanced(s, q)
    ensures Balanced(ChargeCall(s, t), q)
  {
    PendingAfterCharge(s.calls, t, q);
  }

  lemma ChargeKeepsLimit(s: Registry, t: Thread, q: Quota)
    requires t in s.calls && !s.calls[t].charged && Traced(s) && WithinLimit(s, q)
    ensures WithinLimit(ChargeCall(s, t), q)
  {
    var c := s.calls[t];
    if CountOf(s.counts, QuotaOf(c)) < c.tool.maxInvocations && QuotaOf(c) == q {
      assert c.tool in s.registered && c.tool.name == q.1;
    }
  }

  lemma FinishKeeps(s: Registry, t: Thread, q: Quota)
    requires t in s.calls && s.calls[t].charged && Balanced(s, q)
    ensures Balanced(FinishCall(s, t), q)
  {
    var c := s.calls[t];
    var next := FinishCall(s, t);
    assert next.log[..|s.log|] == s.log;
    if QuotaOf(c) == q {
      assert Pending(s.calls, q) == Pending(next.calls, q) + {t};
    } else {
      assert Pending(next.calls, q) == Pending(s.calls, q);
    }
  }

  lemma StepBalances(s: Registry, e: Event, q: Quota)
    requires Balanced(s, q)
    ensures Balanced(Step(s, e), q)
  {
    match e
    case Ask(t, r) =>
      assert Pending(Step(s, e).calls, q) == Pending(s.calls, q);
    case Charge(t) =>
      if t in s.calls && !s.calls[t].charged {
        ChargeKeepsBalance(s, t, q);
      }
    case Finish(t) =>
      if t in s.calls && s.calls[t].charged {
        FinishKeeps(s, t, q);
      }
    case _ =>
  }

  lemma StepKeepsLimit(s: Registry, e: Event, q: Quota)
    requires Traced(s) && WithinLimit(s, q)
    ensures WithinLimit(Step(s, e), q)
  {
    if e.Charge? && e.thread in s.calls && !s.calls[e.thread].charged {
      ChargeKeepsLimit(s, e.thread, q);
    }
  }

  lemma StepIsTraced(s: Registry, e: Event)
    requires Traced(s)
    ensures Traced(Step(s, e))
  {
  }

  lemma {:induction false} RunIsTraced(events: seq<Event>)
    ensures Traced(Run(events))
  {
    if events != [] {
      RunIsTraced(events[..|events| - 1]);
      StepIsTraced(Run(events[..|events| - 1]), events[|events| - 1]);
    }
  }

  /**
    In every interleaving, registrations and removals included: what a session was charged for a tool name
    is exactly its runs, its rejected inputs and its calls under way, counted over both keys of the tool;
    and it is at most the limit of some tool registered under that name.
   */
  lemma {:induction false} QuotasOverRuns(events: seq<Event>, session: string, name: string)
    ensures var (s, q) := (Run(events), (session, name));
            Balanced(s, q) && WithinLimit(s, q)
  {
    if events != [] {
      QuotasOverRuns(events[..|events| - 1], session, name);
      RunIsTraced(events[..|events| - 1]);
      StepBalances(Run(events[..|events| - 1]), events[|events| - 1], (session, name));
      StepKeepsLimit(Run(events[..|events| - 1]), events[|events| - 1], (session, name));
    }
  }

  predicate KeepsTools(events: seq<Event>) {
    forall e :: e in events ==> !e.Unregister?
  }

  predicate NamesTaken(s: Registry) {
    && (forall d :: d in s.registered ==> d.name in s.tools && s.tools[d.name] == d)
  }

  lemma {:induction false} NamesStayTaken(events: seq<Event>)
    requires KeepsTools(events)
    ensures NamesTaken(Run(events))
  {
    if events != [] {
      NamesStayTaken(events[..|events| - 1]);
      var s, e := Run(events[..|events| - 1]), events[|events| - 1];
      assert e in events;
      if e.Register? && Registered(s.tools, e.tool).Ok? {
        forall d | d in s.registered ensures d.name in Step(s, e).tools && Step(s, e).tools[d.name] == d {
          assert d.name != e.tool.name && d.name != Key(e.tool.name, e.tool.version);
        }
      }
    }
  }

  /**
    Without unregistration: a session runs a registered tool at most as often as that tool's own limit
    says, rejected inputs counting against it, whichever of its two keys the calls used.
   */
  lemma RunsStayWithinTheToolsOwnLimit(events: seq<Event>, session: string, d: Definition)
    requires KeepsTools(events) && d in Run(events).registered
    ensures var s := Run(events);
            var q := (session, d.name);
            && (forall e :: e in s.log && e.tool.name == d.name ==> e.tool == d)
            && (Finished(s.log, q, true) + Finished(s.log, q, false) > 0 ==>
                  Finished(s.log, q, true) + Finished(s.log, q, false) <= d.maxInvocations)
  {
    QuotasOverRuns(events, session, d.name);
    NamesStayTaken(events);
    RunIsTraced(events);
  }

  /** A lookup by name, or by name and version, finds a tool registered under that name or that spelling. */
  lemma {:induction false} EveryKeyFindsItsTool(events: seq<Event>, d: Definition)
    requires KeepsTools(events) && d in Run(events).registered && d.version != ""
    ensures Resolve(Run(events).tools, d.name, None) == Ok(d)
    ensures Resolve(Run(events).tools, d.name, Some(d.version)) == Ok(d)
    ensures Get(Run(events).tools, Key(d.name, d.version), None) == Some(d)
  {
    NamesStayTaken(events);
    VersionsStayTaken(events, d);
  }

  lemma {:induction false} VersionsStayTaken(events: seq<Event>, d: Definition)
    requires KeepsTools(events) && d in Run(events).registered
    ensures Key(d.name, d.version) in Run(events).tools && Run(events).tools[Key(d.name, d.version)] == d
  {
    if events != [] {
      var s, e := Run(events[..|events| - 1]), events[|events| - 1];
      assert e in events;
      if d in s.registered {
        VersionsStayTaken(events[..|events| - 1], d);
      }
    }
  }
}

/** The registry as an object; `calls`, `log` and `registered` record what the other threads see of it. */
module ToolRegistries {
  import opened Outcomes
  import opened ToolQuotas

  /** What a tool's execute returns, or that it raised. */
  datatype Execution = Returned(success: bool, oversized: bool) | Crashed

  datatype Answer = Refused(code: Code) | Succeeded | Failed | OutputTooLarge | ExecutionFailed

  function Answered(e: Execution): Answer {
    match e
    case Crashed => ExecutionFailed
    case Returned(success, oversized) => if oversized then OutputTooLarge else if success then Succeeded else Failed
  }

  /** Which answer tells what of an execution; a result too large is an error whether the tool succeeded or not. */
  lemma AnswersTell(e: Execution)
    ensures Answered(e) == Succeeded <==> e == Returned(true, false)
    ensures Answered(e) == Failed <==> e == Returned(false, false)
    ensures Answered(e) == OutputTooLarge <==> e.Returned? && e.oversized
    ensures Answered(e) == ExecutionFailed <==> e == Crashed
  {
  }

  predicate Foreign(events: seq<Event>, t: Thread) {
    forall e :: e in events ==> ThreadOf(e) != Some(t)
  }

  function ThreadOf(e: Event): Option<Thread> {
    match e
    case Ask(t, _) => Some(t)
    case Charge(t) => Some(t)
    case Finish(t) => Some(t)
    case _ => None
  }

  lemma {:induction false} OthersLeaveCall(before: seq<Event>, others: seq<Event>, t: Thread)
    requires Foreign(others, t)
    ensures var calls, after := Run(before).calls, Run(before + others).calls;
            (t in calls <==> t in after) && (t in calls ==> after[t] == calls[t])
  {
    if others == [] {
      assert before + others == before;
    } else {
      var n := |others| - 1;
      assert others[n] in others;
      OthersLeaveCall(before, others[..n], t);
      assert (before + others)[..|before + others| - 1] == before + others[..n];
    }
  }

  class ToolRegistry {
    var tools: Tools
    var counts: map<Quota, nat>
    ghost var calls: map<Thread, Call>
    ghost var log: seq<Entry>
    ghost var registered: seq<Definition>
    ghost var events: seq<Event>

    /** The registry is the outcome of a run. */
    ghost predicate Valid()
      reads this
    {
      State() == ToolQuotas.Run(events)
    }

    ghost method Logged(e: Event)
      requires State() == Step(ToolQuotas.Run(events), e)
      modifies this`events
      ensures Valid() && events == old(events) + [e]
    {
      events := events + [e];
      assert events[..|events| - 1] == old(events);
    }

    ghost function State(): Registry
      reads this
    {
      Registry(tools, counts, calls, log, registered)
    }

    constructor ()
      ensures Valid() && State() == EMPTY
    {
      tools, counts, calls, log, registered, events := map[], map[], map[], [], [], [];
    }

    method Register(d: Definition) returns (error: Option<Code>)
      requires Valid()
      modifies this
      ensures Valid() && events == old(events) + [Event.Register(d)]
      ensures State() == Step(old(State()), Event.Register(d))
      ensures error == (var next := Registered(old(tools), d); if next.Err? then Some(next.error) else None)
      ensures var taken := d.name in old(tools) || d.name + ":" + d.version in old(tools);
              && (error == Some(AlreadyRegistered) <==> taken)
              && (error == Some(ForbiddenCapability) <==> !taken && exists c :: c in d.capabilities && c in FORBIDDEN)
              && tools == (if error.None? then old(tools)[d.name := d][d.name + ":" + d.version := d] else old(tools))
    {
      var key := Key(d.name, d.version);
      if key in tools || d.name in tools {
        Logged(Event.Register(d));
        return Some(AlreadyRegistered);
      }
      assert forall c :: c in d.capabilities && c in FORBIDDEN <==> c in d.capabilities * FORBIDDEN;
      if d.capabilities * FORBIDDEN != {} {
        Logged(Event.Register(d));
        return Some(ForbiddenCapability);
      }
      tools := tools[d.name := d];
      tools := tools[key := d];
      registered := registered + [d];
      Logged(Event.Register(d));
      return None;
    }

    method Unregister(name: string, version: Option<string>)
      requires Valid()
      modifies this
      ensures Valid() && events == old(events) + [Event.Unregister(name, version)]
      ensures State() == Step(old(State()), Event.Unregister(name, version))
      ensures forall k :: k in tools <==>
                && k in old(tools) && k != name
                && !(version.Some? && version.value != "" && k == name + ":" + version.value)
      ensures forall k :: k in tools ==> tools[k] == old(tools)[k]
    {
      if version.Some? && version.value != "" {
        tools := tools - {Key(name, version.value)};
      }
      tools := tools - {name};
      Logged(Event.Unregister(name, version));
    }

    /** Steps 1 to 4 of a call: nothing is charged yet. */
    method Admit(ghost t: Thread, r: Request) returns (tool: Result<Definition, Code>)
      requires Valid() && t !in calls
      modifies this
      ensures Valid() && events == old(events) + [Ask(t, r)]
      ensures State() == Step(old(State()), Ask(t, r))
      ensures tool.Ok? ==> t in calls && calls[t] == Call(r, tool.value, false)
      ensures tool.Err? ==> t !in calls
      ensures tool == Authorize(old(tools), r)
    {
      tool := Checked(r);
      if tool.Ok? {
        calls := calls[t := Call(r, tool.value, false)];
      }
      Logged(Ask(t, r));
    }

    method Checked(r: Request) returns (tool: Result<Definition, Code>)
      ensures tool == Authorize(tools, r)
    {
      if !r.wellFormed {
        return Err(InvalidRequest);
      }
      tool := Resolve(tools, r.name, r.version);
      if tool.Err? {
        return;
      }
      if !tool.value.enabled || tool.value.blocked {
        return Err(ToolDisabled);
      }
      if exists c :: c in tool.value.capabilities && c !in r.policy {
        return Err(CapabilityDenied);
      }
    }

    /** Step 5, under the registry's lock. */
    method ChargeQuota(ghost t: Thread, r: Request, d: Definition) returns (admitted: bool)
      requires Valid() && t in calls && calls[t] == Call(r, d, false)
      modifies this
      ensures Valid() && events == old(events) + [Charge(t)]
      ensures !admitted ==> t !in calls
      ensures State() == Step(old(State()), Charge(t))
      ensures admitted == (CountOf(old(counts), (r.session, d.name)) < d.maxInvocations)
      ensures admitted ==> t in calls && calls[t] == Call(r, d, true)
    {
      var q := (r.session, d.name);
      var n := if q in counts then counts[q] else 0;
      if n >= d.maxInvocations {
        calls := calls - {t};
        Logged(Charge(t));
        return false;
      }
      counts := counts[q := n + 1];
      calls := calls[t := Call(r, d, true)];
      Logged(Charge(t));
      return true;
    }

    /** Steps 6 and 7: the input is checked after the charge, and a rejected one is not refunded. */
    method Execute(ghost t: Thread, r: Request, d: Definition, execution: Execution) returns (answer: Answer)
      requires Valid() && t in calls && calls[t] == Call(r, d, true)
      modifies this
      ensures Valid() && events == old(events) + [Finish(t)] && t !in calls
      ensures log == old(log) + [Entry(r, d, r.safe)]
      ensures State() == Step(old(State()), Finish(t))
      ensures answer == if r.safe then Answered(execution) else Refused(InputRejected)
    {
      calls := calls - {t};
      log := log + [Entry(r, d, r.safe)];
      Logged(Finish(t));
      if !r.safe {
        return Refused(InputRejected);
      }
      match execution
      case Crashed => return ExecutionFailed;
      case Returned(success, oversized) =>
        if oversized {
          return OutputTooLarge;
        }
        return if success then Succeeded else Failed;
    }

    /** Other threads act on the registry, in any number of steps; `t` is elsewhere. */
    method Interleave(ghost t: Thread)
      requires Valid()
      modifies this
      ensures Valid() && old(events) <= events && Foreign(events[|old(events)|..], t)
    {
    }

    /** Interleave, with what the thread keeps: the stage of its own call. */
    method LetOthersAct(ghost t: Thread)
      requires Valid()
      modifies this
      ensures Valid() && old(events) <= events
      ensures t in calls <==> t in old(calls)
      ensures t in calls ==> calls[t] == old(calls)[t]
    {
      ghost var before := events;
      Interleave(t);
      OthersLeaveCall(before, events[|before|..], t);
      assert events == before + events[|before|..];
    }

    /** Steps 5 to 7 of an admitted call; `charging` is the registry that the charge met. */
    method ChargeAndExecute(ghost t: Thread, r: Request, d: Definition, execution: Execution)
      returns (answer: Answer, ghost charging: Registry)
      requires Valid() && t in calls && calls[t] == Call(r, d, false)
      modifies this
      ensures Valid() && old(events) <= events && t !in calls
      ensures Met(charging)
      ensures if CountOf(charging.counts, (r.session, d.name)) >= d.maxInvocations
              then answer == Refused(InvocationLimit)
              else
                && answer == (if r.safe then Answered(execution) else Refused(InputRejected))
                && log != [] && log[|log| - 1] == Entry(r, d, r.safe)
    {
      LetOthersAct(t);
      charging := State();
      ghost var met := events;
      var admitted := ChargeQuota(t, r, d);
      if !admitted {
        answer := Refused(InvocationLimit);
      } else {
        LetOthersAct(t);
        answer := Execute(t, r, d, execution);
      }
      assert met <= events && charging == ToolQuotas.Run(met);
    }

    /**
      A whole call by one thread. Others act before each of its three steps; `asked` and `charging` are the
      registries that the first and the second step met.
     */
    method AuthorizeAndExecute(ghost t: Thread, r: Request, execution: Execution)
      returns (answer: Answer, ghost asked: Registry, ghost charging: Registry)
      requires Valid() && t !in calls
      modifies this
      ensures Valid() && old(events) <= events && t !in calls
      ensures Met(asked) && Met(charging)
      ensures var tool := Authorize(asked.tools, r);
              if tool.Err? then answer == Refused(tool.error)
              else if CountOf(charging.counts, (r.session, tool.value.name)) >= tool.value.maxInvocations
              then answer == Refused(InvocationLimit)
              else
                && answer == (if r.safe then Answered(execution) else Refused(InputRejected))
                && log != [] && log[|log| - 1] == Entry(r, tool.value, r.safe)
    {
      LetOthersAct(t);
      asked, charging := State(), State();
      ghost var met := events;
      var tool := Admit(t, r);
      if tool.Err? {
        answer := Refused(tool.error);
      } else {
        answer, charging := ChargeAndExecute(t, r, tool.value, execution);
      }
      assert met <= events && asked == ToolQuotas.Run(met);
    }

    /** The registry was in this state at some point of its run. */
    ghost predicate Met(s: Registry)
      reads this
    {
      exists before :: before <= events && s == ToolQuotas.Run(before)
    }
  }
}
