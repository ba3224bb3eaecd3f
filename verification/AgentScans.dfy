/**
  A run told without its state. Passes plan, call and read in turn, so what the environment answers at each
  pass decides by itself what is said, which calls are made, and which pass is the last one.
 */
module AgentScans {
  import opened Outcomes
  import opened AgentMachine
  import opened AgentRuns

  /** The first tool call of the response at pass k, if the model answers with one. */
  function Called(env: Env, k: nat): Option<ToolCall> {
    match env.model(k)
    case Ok(m) => if m.toolCalls == [] then None else Some(m.toolCalls[0])
    case Err(_) => None
  }

  /** Name and arguments of a call as they print. */
  function CallText(call: ToolCall): string {
    (if call.name.Some? then call.name.value else "None") + ":" +
    (if call.arguments.Some? then call.arguments.value else "None")
  }

  /** What pass k adds to the conversation: the model's words, or the outcome of the call made one pass before. */
  function Said(env: Env, k: nat): seq<Message> {
    if k % 3 == 0 then
      if env.model(k).Ok? && env.model(k).value.content != "" then [Assistant(env.model(k).value.content)] else []
    else if k % 3 == 2 && env.tool(k - 1).Ok? then
      var o := env.tool(k - 1).value;
      if !o.success then [ToolError(o.errorText, o.toolName)]
      else if env.json(k).Ok? then [ToolData(env.json(k).value, o.toolName)]
      else []
    else []
  }

  function Conversation(env: Env, n: nat): seq<Message> {
    if n == 0 then [] else Conversation(env, n - 1) + Said(env, n - 1)
  }

  /** The proposal after n passes: the payload of the response that proposed, if one did. */
  function Proposed(env: Env, entry: Agent, n: nat): Option<string> {
    if n == 0 then entry.proposal
    else if (n - 1) % 3 == 0 && env.model(n - 1).Ok? && Called(env, n - 1).None? && env.model(n - 1).value.proposes
    then Some(env.model(n - 1).value.payload)
    else Proposed(env, entry, n - 1)
  }

  /** How a run ends; `cause` is what was raised, if anything. */
  datatype End = End(state: State, cause: Option<Exn>)

  /** The checks before a pass. */
  function Checked(c: Config, env: Env, entry: Agent, k: nat): Option<End> {
    if env.cancelled(k) then Some(End(Cancelled, Some(Stopped(Cancellation))))
    else if env.clock(k) - env.start > c.timeoutSeconds then Some(End(TimedOut, Some(Stopped(Timeout))))
    else if entry.iterations + k + 1 > c.maxIterations then Some(End(Failed, Some(Stopped(LoopLimit))))
    else None
  }

  /** The calls of the planning passes k, k - 3 and k - 6 print alike. */
  predicate ThriceTheSame(env: Env, k: nat) {
    && k >= 6 && Called(env, k).Some? && Called(env, k - 3).Some? && Called(env, k - 6).Some?
    && CallText(Called(env, k).value) == CallText(Called(env, k - 3).value) == CallText(Called(env, k - 6).value)
  }

  function EndOfPlanning(env: Env, k: nat): Option<End> {
    match env.model(k)
    case Err(e) => Some(End(Failed, Some(e)))
    case Ok(m) => if m.toolCalls == [] && !m.proposes then Some(End(Completed, None)) else None
  }

  function EndOfCalling(c: Config, env: Env, entry: Agent, k: nat, call: ToolCall): Option<End>
    requires k % 3 == 1
  {
    if entry.toolCalls + k / 3 >= c.maxToolCalls then Some(End(Failed, Some(Stopped(ToolLimit))))
    else if ThriceTheSame(env, k - 1) then Some(End(Failed, Some(Stopped(SecurityViolation))))
    else if call == ToolCall(None, None, {}) then Some(End(Failed, None))
    else if env.tool(k).Err? then Some(End(Failed, Some(env.tool(k).error)))
    else None
  }

  function EndOfProposing(env: Env, k: nat): Option<End> {
    match env.proposal(k)
    case Some(e) => Some(End(Failed, Some(e)))
    case None => Some(End(Completed, None))
  }

  function EndOfReading(env: Env, k: nat): Option<End>
    requires k % 3 == 2
  {
    if env.tool(k - 1).Ok? && env.tool(k - 1).value.success && env.json(k).Err?
    then Some(End(Failed, Some(env.json(k).error)))
    else None
  }

  /** How pass k would end the run, if it is reached and ends it. */
  function Ending(c: Config, env: Env, entry: Agent, k: nat): Option<End> {
    if Checked(c, env, entry, k).Some? then Checked(c, env, entry, k)
    else if k % 3 == 0 then EndOfPlanning(env, k)
    else if k % 3 == 2 then EndOfReading(env, k)
    else if Called(env, k - 1).Some? then EndOfCalling(c, env, entry, k, Called(env, k - 1).value)
    else EndOfProposing(env, k)
  }

  /** The passes that did their work in a run ended by pass k: one that fails a check does none. */
  function Worked(c: Config, env: Env, entry: Agent, k: nat): nat {
    if Checked(c, env, entry, k).Some? then k else k + 1
  }

  /** The n-th call that reached the registry is the first call of the n-th response. */
  predicate Executed(env: Env, executed: seq<string>) {
    forall n: nat :: n < |executed| ==>
      Called(env, 3 * n).Some? && executed[n] == CallText(Called(env, 3 * n).value)
  }

  /** What a run has said, proposed and called after n passes. */
  predicate Told(env: Env, entry: Agent, prompt: string, n: nat, r: Trace) {
    && r.agent.messages == entry.messages + [User(prompt)] + Conversation(env, n)
    && r.agent.proposal == Proposed(env, entry, n)
    && Executed(env, r.executed)
  }

  /** The caller sees the cause itself, or an agent error around one that the runtime does not know. */
  predicate Ended(entry: Agent, end: End, a: Agent, e: Option<Exn>) {
    && a.current == end.state
    && match end.cause
       case None => e == None && a.failure == entry.failure
       case Some(x) =>
         && a.failure == Some(Because(x))
         && e == Some(if x.AgentError? || x.kind == Uncontrolled then AgentError(x) else x)
  }

  // ---------------------------------------------------------------------------------------------
  // One pass
  // ---------------------------------------------------------------------------------------------

  /** What the node to come works on. */
  predicate Holds(env: Env, k: nat, a: Agent) {
    match a.current
    case ToolRequested => k > 0 && Called(env, k - 1).Some? && a.pending == Called(env, k - 1)
    case ProposalReady => k > 0 && Called(env, k - 1).None?
    case ProcessingToolResult => k > 0 && a.result.Some? && env.tool(k - 1) == Ok(a.result.value)
    case _ => true
  }

  predicate Follows(c: Config, env: Env, entry: Agent, prompt: string, k: nat, r: Trace) {
    && AtHead(entry, c, r) && Passes(entry, r) == k && r.agent.failure == entry.failure
    && Told(env, entry, prompt, k, r) && Holds(env, k, r.agent)
  }

  /** Pass k goes on to pass k + 1, or ends the run as `Ending` says. */
  predicate Passed(c: Config, env: Env, entry: Agent, prompt: string, k: nat, f: Flow) {
    match Ending(c, env, entry, k)
    case None => f.Goes? && Follows(c, env, entry, prompt, k + 1, f.run)
    case Some(end) =>
      && Over(f) && Ended(entry, end, Reported(f).0, Reported(f).1)
      && Told(env, entry, prompt, Worked(c, env, entry, k), f.run.(agent := Reported(f).0))
  }

  lemma OnePass(c: Config, env: Env, entry: Agent, prompt: string, k: nat, r: Trace)
    requires Follows(c, env, entry, prompt, k, r)
    ensures Passed(c, env, entry, prompt, k, Iterate(c, env, k, r))
  {
    IterateKeeps(entry, c, env, k, r);
    if Checked(c, env, entry, k).Some? {
      CheckedPass(c, env, entry, prompt, k, r);
    } else {
      match r.agent.current
      case Planning => PlanningPass(c, env, entry, prompt, k, r);
      case ToolRequested => CallingPass(c, env, entry, prompt, k, r);
      case ProposalReady => ProposingPass(c, env, entry, prompt, k, r);
      case ProcessingToolResult => ReadingPass(c, env, entry, prompt, k, r);
    }
  }

  /** An exception that reaches a handler before the agent is terminal. */
  lemma RaisedEnds(entry: Agent, f: Flow)
    requires f.Raises? && !Terminal(f.run.agent.current)
    ensures var (a, e) := Reported(f);
            && Ended(entry, End(Failed, Some(f.exn)), a, e)
            && a.messages == f.run.agent.messages && a.proposal == f.run.agent.proposal
  {
    FailedIsReachableUnlessTerminal(f.run.agent.current);
  }

  /** A run that the runtime stops itself. */
  lemma StopEnds(entry: Agent, r: Trace, to: State, kind: Kind)
    requires to in {Failed, Cancelled, TimedOut} && Legal(r.agent.current, to) && kind != Uncontrolled
    ensures var f := Stop(r, to, Stopped(kind));
            var (a, e) := Reported(f);
            && f.Raises? && f.run.executed == r.executed
            && Ended(entry, End(to, Some(Stopped(kind))), a, e)
            && a.messages == r.agent.messages && a.proposal == r.agent.proposal
  {
  }

  lemma CheckedPass(c: Config, env: Env, entry: Agent, prompt: string, k: nat, r: Trace)
    requires Follows(c, env, entry, prompt, k, r) && Checked(c, env, entry, k).Some?
    ensures Passed(c, env, entry, prompt, k, Iterate(c, env, k, r))
  {
    if env.cancelled(k) {
      StopEnds(entry, r, Cancelled, Cancellation);
    } else if env.clock(k) - env.start > c.timeoutSeconds {
      StopEnds(entry, r, TimedOut, Timeout);
    } else {
      StopEnds(entry, Counted(r), Failed, LoopLimit);
    }
  }

  /** What is said in pass k is added at the end. */
  lemma TalkGrows(env: Env, entry: Agent, prompt: string, k: nat, messages: seq<Message>)
    requires messages == entry.messages + [User(prompt)] + Conversation(env, k)
    ensures messages + Said(env, k) == entry.messages + [User(prompt)] + Conversation(env, k + 1)
  {
  }

  /** The agent after a response, before it moves on. */
  function Informed(a: Agent, m: ModelResponse): Agent {
    var b := Heard(a, m.content);
    if m.toolCalls != [] then b.(pending := Some(m.toolCalls[0]))
    else if m.proposes then b.(proposal := Some(m.payload))
    else b
  }

  lemma InformedIsTold(env: Env, entry: Agent, prompt: string, k: nat, r: Trace, m: ModelResponse)
    requires Told(env, entry, prompt, k, r) && k % 3 == 0 && env.model(k) == Ok(m)
    ensures Told(env, entry, prompt, k + 1, r.(agent := Informed(r.agent, m)))
  {
    TalkGrows(env, entry, prompt, k, r.agent.messages);
    assert r.agent.messages + [] == r.agent.messages;
  }

  lemma AnsweredPlan(c: Config, env: Env, entry: Agent, prompt: string, k: nat, r: Trace) returns (b: Agent, to: State)
    requires Follows(c, env, entry, prompt, k, r) && Checked(c, env, entry, k).None? && r.agent.current == Planning
    requires env.model(k).Ok?
    ensures b == Informed(Counted(r).agent, env.model(k).value) && to in {ToolRequested, ProposalReady, Completed}
    ensures Iterate(c, env, k, r) == Outcome(Counted(r), Move(b, to)) && Legal(b.current, to)
    ensures to == ToolRequested <==> Called(env, k).Some?
    ensures to == Completed <==> EndOfPlanning(env, k) == Some(End(Completed, None))
    ensures to != Completed <==> EndOfPlanning(env, k).None?
    ensures Told(env, entry, prompt, k + 1, r.(agent := b))
  {
    var m := env.model(k).value;
    b := Informed(Counted(r).agent, m);
    to := if m.toolCalls != [] then ToolRequested else if m.proposes then ProposalReady else Completed;
    InformedIsTold(env, entry, prompt, k, Counted(r), m);
    assert Iterate(c, env, k, r) == Outcome(Counted(r), Plan(Counted(r).agent, Ok(m)));
  }

  lemma PlanningRaises(c: Config, env: Env, entry: Agent, prompt: string, k: nat, r: Trace)
    requires Follows(c, env, entry, prompt, k, r) && Checked(c, env, entry, k).None? && r.agent.current == Planning
    requires env.model(k).Err?
    ensures Passed(c, env, entry, prompt, k, Iterate(c, env, k, r))
  {
    var f := Raises(Counted(r), env.model(k).error);
    assert Iterate(c, env, k, r) == f;
    RaisedEnds(entry, f);
    TalkGrows(env, entry, prompt, k, r.agent.messages);
    assert r.agent.messages + [] == r.agent.messages;
  }

  lemma PlanningPass(c: Config, env: Env, entry: Agent, prompt: string, k: nat, r: Trace)
    requires Follows(c, env, entry, prompt, k, r) && Checked(c, env, entry, k).None? && r.agent.current == Planning
    requires Kept(entry, c, Iterate(c, env, k, r))
    ensures Passed(c, env, entry, prompt, k, Iterate(c, env, k, r))
  {
    if env.model(k).Err? {
      PlanningRaises(c, env, entry, prompt, k, r);
    } else {
      var b, to := AnsweredPlan(c, env, entry, prompt, k, r);
      var f := Goes(Counted(r).(agent := Move(b, to).0));
      assert Iterate(c, env, k, r) == f;
      assert b.failure == entry.failure && b.iterations == r.agent.iterations + 1;
    }
  }

  lemma TripleIff(tracker: seq<string>, text: string)
    ensures EndsInTriple(tracker + [text]) <==>
            |tracker| >= 2 && tracker[|tracker| - 1] == text && tracker[|tracker| - 2] == text
  {
  }

  lemma CallPrints(a: Agent, call: ToolCall)
    requires a.pending == Some(call)
    ensures Signature(a) == CallText(call)
    ensures Requested(a).None? <==> call == ToolCall(None, None, {})
  {
  }

  lemma CallCounted(c: Config, env: Env, entry: Agent, prompt: string, k: nat, r: Trace)
    requires Follows(c, env, entry, prompt, k, r) && r.agent.current == ToolRequested
    ensures k == 3 * |r.executed| + 1 && Called(env, k - 1).Some? && Counted(r).agent.pending == Called(env, k - 1)
    ensures r.agent.toolCalls == entry.toolCalls + k / 3 && r.tracker == r.executed
    ensures Executed(env, r.executed)
  {
  }

  lemma DetectorSees(env: Env, executed: seq<string>, k: nat)
    requires Executed(env, executed) && k == 3 * |executed| + 1 && Called(env, k - 1).Some?
    ensures EndsInTriple(executed + [CallText(Called(env, k - 1).value)]) <==> ThriceTheSame(env, k - 1)
  {
    var calls, text := |executed|, CallText(Called(env, k - 1).value);
    TripleIff(executed, text);
    if calls >= 2 {
      assert executed[calls - 1] == CallText(Called(env, 3 * (calls - 1)).value);
      assert executed[calls - 2] == CallText(Called(env, 3 * (calls - 2)).value);
    }
  }

  /** Before a call: which one it is, and what the loop detector makes of it. */
  lemma CallKnown(c: Config, env: Env, entry: Agent, prompt: string, k: nat, r: Trace)
    requires Follows(c, env, entry, prompt, k, r) && r.agent.current == ToolRequested
    ensures k % 3 == 1 && Called(env, k - 1).Some? && r.agent.toolCalls == entry.toolCalls + k / 3
    ensures var call := Called(env, k - 1).value;
            && Signature(Counted(r).agent) == CallText(call)
            && (Requested(Counted(r).agent).None? <==> call == ToolCall(None, None, {}))
    ensures EndsInTriple(Noted(Counted(r)).tracker) <==> ThriceTheSame(env, k - 1)
  {
    CallCounted(c, env, entry, prompt, k, r);
    CallPrints(Counted(r).agent, Called(env, k - 1).value);
    DetectorSees(env, r.executed, k);
  }

  /** The passes that call or propose add nothing to the conversation. */
  lemma SilentPass(env: Env, entry: Agent, k: nat)
    requires k % 3 == 1
    ensures Conversation(env, k + 1) == Conversation(env, k) && Proposed(env, entry, k + 1) == Proposed(env, entry, k)
  {
  }

  lemma CallStops(c: Config, env: Env, entry: Agent, prompt: string, k: nat, r: Trace, kind: Kind)
    requires Follows(c, env, entry, prompt, k, r) && Checked(c, env, entry, k).None? && r.agent.current == ToolRequested
    requires if r.agent.toolCalls >= c.maxToolCalls then kind == ToolLimit
             else kind == SecurityViolation && ThriceTheSame(env, k - 1)
    ensures Passed(c, env, entry, prompt, k, Iterate(c, env, k, r))
  {
    SilentPass(env, entry, k);
    CallKnown(c, env, entry, prompt, k, r);
    var s := if kind == ToolLimit then Counted(r) else Noted(Counted(r));
    assert Iterate(c, env, k, r) == Stop(s, Failed, Stopped(kind));
    StopEnds(entry, s, Failed, kind);
  }

  lemma CallExecutes(c: Config, env: Env, entry: Agent, prompt: string, k: nat, r: Trace)
    requires Follows(c, env, entry, prompt, k, r) && r.agent.current == ToolRequested
    requires !ThriceTheSame(env, k - 1)
    ensures Executed(env, Noted(Counted(r)).executed)
  {
    CallKnown(c, env, entry, prompt, k, r);
    assert k - 1 == 3 * |r.executed|;
  }

  lemma EmptyCallFails(c: Config, env: Env, entry: Agent, prompt: string, k: nat, r: Trace)
    requires Follows(c, env, entry, prompt, k, r) && Checked(c, env, entry, k).None? && r.agent.current == ToolRequested
    requires r.agent.toolCalls < c.maxToolCalls && !ThriceTheSame(env, k - 1)
    requires Called(env, k - 1) == Some(ToolCall(None, None, {}))
    ensures Passed(c, env, entry, prompt, k, Iterate(c, env, k, r))
  {
    SilentPass(env, entry, k);
    CallKnown(c, env, entry, prompt, k, r);
    CallExecutes(c, env, entry, prompt, k, r);
    var s := Counted(r);
    assert Iterate(c, env, k, r) == Goes(Noted(s).(agent := Move(s.agent, Failed).0));
  }

  lemma CallRaises(c: Config, env: Env, entry: Agent, prompt: string, k: nat, r: Trace)
    requires Follows(c, env, entry, prompt, k, r) && Checked(c, env, entry, k).None? && r.agent.current == ToolRequested
    requires r.agent.toolCalls < c.maxToolCalls && !ThriceTheSame(env, k - 1)
    requires Called(env, k - 1) != Some(ToolCall(None, None, {})) && env.tool(k).Err?
    ensures Passed(c, env, entry, prompt, k, Iterate(c, env, k, r))
  {
    SilentPass(env, entry, k);
    CallKnown(c, env, entry, prompt, k, r);
    CallExecutes(c, env, entry, prompt, k, r);
    var s := Counted(r);
    var b := Move(s.agent, WaitingForTool).0;
    var f := Raises(Noted(s).(agent := b.(toolCalls := b.toolCalls + 1)), env.tool(k).error);
    assert Iterate(c, env, k, r) == f;
    RaisedEnds(entry, f);
  }

  /** A call that the tool answers. */
  lemma CallReturns(c: Config, env: Env, entry: Agent, prompt: string, k: nat, r: Trace) returns (d: Agent)
    requires Follows(c, env, entry, prompt, k, r) && Checked(c, env, entry, k).None? && r.agent.current == ToolRequested
    requires r.agent.toolCalls < c.maxToolCalls && !ThriceTheSame(env, k - 1)
    requires Called(env, k - 1) != Some(ToolCall(None, None, {})) && env.tool(k).Ok?
    ensures Iterate(c, env, k, r) == Goes(Noted(Counted(r)).(agent := d))
    ensures d.current == ProcessingToolResult && d.result == Some(env.tool(k).value)
    ensures d.iterations == r.agent.iterations + 1 && d.failure == r.agent.failure
    ensures d.messages == r.agent.messages && d.proposal == r.agent.proposal
  {
    CallKnown(c, env, entry, prompt, k, r);
    var b := Move(Counted(r).agent, WaitingForTool).0;
    var e := b.(toolCalls := b.toolCalls + 1, result := Some(env.tool(k).value), pending := None);
    assert RunTool(Counted(r).agent, env.tool(k)) == Move(e, ProcessingToolResult);
    d := Move(e, ProcessingToolResult).0;
  }

  lemma CallGoesOn(c: Config, env: Env, entry: Agent, prompt: string, k: nat, r: Trace)
    requires Follows(c, env, entry, prompt, k, r) && Checked(c, env, entry, k).None? && r.agent.current == ToolRequested
    requires r.agent.toolCalls < c.maxToolCalls && !ThriceTheSame(env, k - 1)
    requires Called(env, k - 1) != Some(ToolCall(None, None, {})) && env.tool(k).Ok?
    requires Kept(entry, c, Iterate(c, env, k, r))
    ensures Passed(c, env, entry, prompt, k, Iterate(c, env, k, r))
  {
    SilentPass(env, entry, k);
    CallExecutes(c, env, entry, prompt, k, r);
    CallCounted(c, env, entry, prompt, k, r);
    var d := CallReturns(c, env, entry, prompt, k, r);
  }

  lemma CallingPass(c: Config, env: Env, entry: Agent, prompt: string, k: nat, r: Trace)
    requires Follows(c, env, entry, prompt, k, r) && Checked(c, env, entry, k).None? && r.agent.current == ToolRequested
    requires Kept(entry, c, Iterate(c, env, k, r))
    ensures Passed(c, env, entry, prompt, k, Iterate(c, env, k, r))
  {
    if r.agent.toolCalls >= c.maxToolCalls || ThriceTheSame(env, k - 1) {
      var kind := if r.agent.toolCalls >= c.maxToolCalls then ToolLimit else SecurityViolation;
      CallStops(c, env, entry, prompt, k, r, kind);
    } else if Called(env, k - 1) == Some(ToolCall(None, None, {})) {
      EmptyCallFails(c, env, entry, prompt, k, r);
    } else if env.tool(k).Err? {
      CallRaises(c, env, entry, prompt, k, r);
    } else {
      CallGoesOn(c, env, entry, prompt, k, r);
    }
  }

  lemma ProposingPass(c: Config, env: Env, entry: Agent, prompt: string, k: nat, r: Trace)
    requires Follows(c, env, entry, prompt, k, r) && Checked(c, env, entry, k).None? && r.agent.current == ProposalReady
    ensures Passed(c, env, entry, prompt, k, Iterate(c, env, k, r))
  {
    SilentPass(env, entry, k);
    var s := Counted(r);
    assert Iterate(c, env, k, r) == Outcome(s, Propose(s.agent, env.proposal(k)));
    if env.proposal(k).Some? {
      RaisedEnds(entry, Raises(s, env.proposal(k).value));
    } else {
      var b := Move(s.agent, WaitingForGateway).0;
      assert Propose(s.agent, env.proposal(k)) == Move(b, Completed);
    }
  }

  lemma ReadingRaises(c: Config, env: Env, entry: Agent, prompt: string, k: nat, r: Trace)
    requires Follows(c, env, entry, prompt, k, r) && Checked(c, env, entry, k).None?
    requires r.agent.current == ProcessingToolResult && EndOfReading(env, k).Some?
    ensures Passed(c, env, entry, prompt, k, Iterate(c, env, k, r))
  {
    var f := Raises(Counted(r), env.json(k).error);
    assert Iterate(c, env, k, r) == f;
    RaisedEnds(entry, f);
    TalkGrows(env, entry, prompt, k, r.agent.messages);
    assert r.agent.messages + [] == r.agent.messages;
  }

  lemma ReadingGoesOn(c: Config, env: Env, entry: Agent, prompt: string, k: nat, r: Trace)
    requires Follows(c, env, entry, prompt, k, r) && Checked(c, env, entry, k).None?
    requires r.agent.current == ProcessingToolResult && EndOfReading(env, k).None?
    requires Kept(entry, c, Iterate(c, env, k, r))
    ensures Passed(c, env, entry, prompt, k, Iterate(c, env, k, r))
  {
    var s := Counted(r);
    var b := s.agent.(messages := s.agent.messages + Said(env, k));
    TalkGrows(env, entry, prompt, k, r.agent.messages);
    assert ReadResult(s.agent, env.json(k)) == Move(b, Planning);
    assert Iterate(c, env, k, r) == Goes(s.(agent := Move(b, Planning).0));
  }

  lemma ReadingPass(c: Config, env: Env, entry: Agent, prompt: string, k: nat, r: Trace)
    requires Follows(c, env, entry, prompt, k, r) && Checked(c, env, entry, k).None?
    requires r.agent.current == ProcessingToolResult && Kept(entry, c, Iterate(c, env, k, r))
    ensures k % 3 == 2 && Passed(c, env, entry, prompt, k, Iterate(c, env, k, r))
  {
    if EndOfReading(env, k).Some? {
      ReadingRaises(c, env, entry, prompt, k, r);
    } else {
      ReadingGoesOn(c, env, entry, prompt, k, r);
    }
  }

  // ---------------------------------------------------------------------------------------------
  // Whole runs
  // ---------------------------------------------------------------------------------------------

  predicate LoopPassed(c: Config, env: Env, entry: Agent, prompt: string, k: nat, r: Trace, n: nat) {
    Passed(c, env, entry, prompt, n, Loop(c, env, k, r))
  }

  lemma NextFollows(c: Config, env: Env, entry: Agent, prompt: string, k: nat, r: Trace) returns (next: Trace)
    requires Follows(c, env, entry, prompt, k, r) && Ending(c, env, entry, k).None?
    ensures Follows(c, env, entry, prompt, k + 1, next) && Measure(c, next) < Measure(c, r)
    ensures forall n :: LoopPassed(c, env, entry, prompt, k + 1, next, n) ==> LoopPassed(c, env, entry, prompt, k, r, n)
  {
    OnePass(c, env, entry, prompt, k, r);
    next := NextPass(entry, c, env, k, r);
  }

  lemma LastEnds(c: Config, env: Env, entry: Agent, prompt: string, k: nat, r: Trace)
    requires Follows(c, env, entry, prompt, k, r) && Ending(c, env, entry, k).Some?
    ensures LoopPassed(c, env, entry, prompt, k, r, k)
  {
    OnePass(c, env, entry, prompt, k, r);
    LastPass(c, env, k, r);
  }

  predicate NoneBefore(c: Config, env: Env, entry: Agent, k: nat) {
    forall j: nat :: j < k ==> Ending(c, env, entry, j).None?
  }

  lemma {:induction false} LoopEnds(c: Config, env: Env, entry: Agent, prompt: string, k: nat, r: Trace)
    returns (n: nat)
    requires Follows(c, env, entry, prompt, k, r) && NoneBefore(c, env, entry, k)
    ensures NoneBefore(c, env, entry, n) && Ending(c, env, entry, n).Some?
    ensures LoopPassed(c, env, entry, prompt, k, r, n)
    decreases Measure(c, r)
  {
    if Ending(c, env, entry, k).Some? {
      LastEnds(c, env, entry, prompt, k, r);
      n := k;
    } else {
      var next := NextFollows(c, env, entry, prompt, k, r);
      n := LoopEnds(c, env, entry, prompt, k + 1, next);
    }
  }

  lemma BeginFollows(c: Config, env: Env, entry: Agent, prompt: string)
    requires OnPath(entry) && entry.current == Idle
    ensures Begin(entry, prompt).Goes? && Follows(c, env, entry, prompt, 0, Begin(entry, prompt).run)
  {
    BeginReachesHead(c, entry, prompt);
  }

  /**
    Every run is told by the answers of its environment. It ends at the first pass that those answers end, in
    the way they say; its conversation is the one it began with, the prompt, and for each pass that worked the
    words of the model or the outcome of the tool; its proposal is the payload of the response that proposed;
    and its calls are the first calls of the responses, in order.
   */
  lemma RunIsTold(c: Config, env: Env, entry: Agent, prompt: string) returns (n: nat)
    requires OnPath(entry) && entry.current == Idle
    ensures Ending(c, env, entry, n).Some? && forall j: nat :: j < n ==> Ending(c, env, entry, j).None?
    ensures var (r, e) := Execute(c, env, entry, prompt);
            && Ended(entry, Ending(c, env, entry, n).value, r.agent, e)
            && Told(env, entry, prompt, Worked(c, env, entry, n), r)
  {
    BeginFollows(c, env, entry, prompt);
    n := LoopEnds(c, env, entry, prompt, 0, Begin(entry, prompt).run);
  }
}
