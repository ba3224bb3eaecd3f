/**
  One run of the agent graph as a function of everything the run cannot control: the model adapter, the
  tools, JSON encoding, the proposal builder, the clock and the cancellation token. Each is a function of
  the loop iteration, so any behaviour they can show in a run, adaptive ones included, is some `Env`.
 */
module AgentRuns {
  import opened Outcomes
  import opened AgentMachine

  datatype Kind =
    | StateTransition | Cancellation | Timeout | LoopLimit | ToolLimit | SecurityViolation
    | Uncontrolled  // any other exception

  /** Raised by the runtime itself, or by something it calls, or passed on in place of an uncontrolled one. */
  datatype Exn = Stopped(kind: Kind) | Foreign(kind: Kind, text: string) | AgentError(cause: Exn)

  /** A failure reason: the text of an exception, or one of the two that finalizing sets. */
  datatype Reason = Because(exn: Exn) | ProposalReadyForGateway | UnhandledState

  /** A dictionary, with its two entries that matter as they print. */
  datatype ToolCall = ToolCall(name: Option<string>, arguments: Option<string>, others: set<string>)

  datatype ToolOutcome = ToolOutcome(toolName: string, success: bool, data: string, errorText: string)
  datatype Message =
    | User(content: string)
    | Assistant(content: string)
    | ToolData(content: string, toolName: string)
    | ToolError(errorText: string, toolName: string)

  /** `proposes`: "proposal" is a key of the raw response, or "amount_paise" occurs in the content. */
  datatype ModelResponse = ModelResponse(
    content: string, toolCalls: seq<ToolCall>, proposes: bool, payload: string)

  datatype Agent = Agent(
    current: State, history: seq<StepRecord>, messages: seq<Message>,
    pending: Option<ToolCall>, result: Option<ToolOutcome>, proposal: Option<string>,
    iterations: int, toolCalls: int, failure: Option<Reason>)

  datatype Config = Config(maxIterations: int, maxToolCalls: int, timeoutSeconds: real) {
    /** What AgentConfig checks when it is built. */
    predicate Valid() {
      maxIterations > 0 && maxToolCalls >= 0 && timeoutSeconds > 0.0
    }
  }

  datatype Env = Env(
    cancelled: nat -> bool,
    start: real, clock: nat -> real,
    model: nat -> Result<ModelResponse, Exn>,
    tool: nat -> Result<ToolOutcome, Exn>,
    json: nat -> Result<string, Exn>,
    proposal: nat -> Option<Exn>)

  // ---------------------------------------------------------------------------------------------
  // The agent's own operations
  // ---------------------------------------------------------------------------------------------

  function NewAgent(initial: State): Agent {
    Agent(initial, [StepRecord(0, Idle, initial)], [], None, None, None, 0, 0, None)
  }

  const ILLEGAL := Stopped(StateTransition)

  function Move(a: Agent, to: State): (Agent, Option<Exn>) {
    if Legal(a.current, to)
    then (a.(current := to, history := a.history + [StepRecord(|a.history|, a.current, to)]), None)
    else (a, Some(ILLEGAL))
  }

  predicate Empty(call: ToolCall) {
    call.name.None? && call.arguments.None? && call.others == {}
  }

  /** The pending call as a node reads it: an empty dictionary counts as none. */
  function Requested(a: Agent): Option<ToolCall> {
    if a.pending.Some? && !Empty(a.pending.value) then a.pending else None
  }

  function Printed(value: Option<string>): string {
    if value.Some? then value.value else "None"
  }

  /** The text by which repeated tool requests are recognised. */
  function Signature(a: Agent): string {
    var call := Requested(a);
    if call.Some? then Printed(call.value.name) + ":" + Printed(call.value.arguments)
    else Printed(None) + ":" + Printed(None)
  }

  // ---------------------------------------------------------------------------------------------
  // The nodes
  // ---------------------------------------------------------------------------------------------

  function ReceiveInput(a: Agent, prompt: string): (Agent, Option<Exn>) {
    var (b, e) := Move(a, ReceivingInput);
    if e.Some? then (b, e) else Move(b.(messages := b.messages + [User(prompt)]), Planning)
  }

  function Heard(a: Agent, content: string): Agent {
    if content == "" then a else a.(messages := a.messages + [Assistant(content)])
  }

  function Plan(a: Agent, response: Result<ModelResponse, Exn>): (Agent, Option<Exn>) {
    match response
    case Err(e) => (a, Some(e))
    case Ok(r) =>
      var b := Heard(a, r.content);
      if r.toolCalls != [] then
        Move(b.(pending := Some(r.toolCalls[0])), ToolRequested)
      else if r.proposes then
        Move(b.(proposal := Some(r.payload)), ProposalReady)
      else
        Move(b, Completed)
  }

  function RunTool(a: Agent, outcome: Result<ToolOutcome, Exn>): (Agent, Option<Exn>) {
    if Requested(a).None? then Move(a, Failed)
    else
      var (b, e) := Move(a, WaitingForTool);
      if e.Some? then (b, e)
      else
        var c := b.(toolCalls := b.toolCalls + 1);
        match outcome
        case Err(e) => (c, Some(e))
        case Ok(r) => Move(c.(result := Some(r), pending := None), ProcessingToolResult)
  }

  /** The message for a tool's outcome; the text of an error is prefixed when it is shown. */
  function Answered(r: ToolOutcome, json: Result<string, Exn>): Message
    requires r.success ==> json.Ok?
  {
    if r.success then ToolData(json.value, r.toolName) else ToolError(r.errorText, r.toolName)
  }

  function ReadResult(a: Agent, json: Result<string, Exn>): (Agent, Option<Exn>) {
    if a.result.None? then Move(a, Failed)
    else
      var r := a.result.value;
      if r.success && json.Err? then (a, Some(json.error))
      else
        Move(a.(messages := a.messages + [Answered(r, json)]), Planning)
  }

  function Propose(a: Agent, built: Option<Exn>): (Agent, Option<Exn>) {
    if built.Some? then (a, built)
    else
      var (b, e) := Move(a, WaitingForGateway);
      if e.Some? then (b, e) else Move(b, Completed)
  }

  function Finalize(a: Agent, success: bool, reason: Reason): (Agent, Option<Exn>) {
    if Terminal(a.current) then (a.(failure := Some(reason)), None)
    else
      var (b, e) := Move(a, if success then Completed else Failed);
      if e.Some? then (b, e) else (b.(failure := Some(reason)), None)
  }

  // ---------------------------------------------------------------------------------------------
  // The loop
  // ---------------------------------------------------------------------------------------------

  /** `tracker` is the list the loop detector looks at, `executed` the calls that reached the registry. */
  datatype Trace = Trace(agent: Agent, tracker: seq<string>, executed: seq<string>)

  datatype Flow = Goes(run: Trace) | Raises(run: Trace, exn: Exn)

  function Stop(r: Trace, to: State, e: Exn): Flow {
    var (b, refused) := Move(r.agent, to);
    if refused.Some? then Raises(r.(agent := b), refused.value)
    else Raises(r.(agent := b.(failure := Some(Because(e)))), e)
  }

  function Outcome(r: Trace, step: (Agent, Option<Exn>)): Flow {
    if step.1.Some? then Raises(r.(agent := step.0), step.1.value) else Goes(r.(agent := step.0))
  }

  const CANCELLED := Stopped(Cancellation)
  const TIMED_OUT := Stopped(Timeout)
  const TOO_MANY_ITERATIONS := Stopped(LoopLimit)
  const TOO_MANY_TOOL_CALLS := Stopped(ToolLimit)
  const TOOL_LOOP := Stopped(SecurityViolation)

  predicate EndsInTriple(tracker: seq<string>) {
    var n := |tracker|;
    n >= 3 && tracker[n - 1] == tracker[n - 2] == tracker[n - 3]
  }

  /** The run with a request noted: the detector notes every request, the registry only gets the real ones. */
  function Noted(r: Trace): Trace {
    var s := r.(tracker := r.tracker + [Signature(r.agent)]);
    if EndsInTriple(s.tracker) || Requested(r.agent).None? then s
    else s.(executed := s.executed + [Signature(r.agent)])
  }

  function RequestTool(c: Config, env: Env, k: nat, r: Trace): Flow {
    if r.agent.toolCalls >= c.maxToolCalls then Stop(r, Failed, TOO_MANY_TOOL_CALLS)
    else if EndsInTriple(Noted(r).tracker) then Stop(Noted(r), Failed, TOOL_LOOP)
    else Outcome(Noted(r), RunTool(r.agent, env.tool(k)))
  }

  /** The node for the current state; the last two cases end the loop with a `break`. */
  function Branch(c: Config, env: Env, k: nat, r: Trace): Flow {
    match r.agent.current
    case Planning => Outcome(r, Plan(r.agent, env.model(k)))
    case ToolRequested => RequestTool(c, env, k, r)
    case ProcessingToolResult => Outcome(r, ReadResult(r.agent, env.json(k)))
    case ProposalReady => Outcome(r, Propose(r.agent, env.proposal(k)))
    case WaitingForGateway => Outcome(r, Finalize(r.agent, true, ProposalReadyForGateway))
    case _ => Outcome(r, Finalize(r.agent, false, UnhandledState))
  }

  function Counted(r: Trace): Trace {
    r.(agent := r.agent.(iterations := r.agent.iterations + 1))
  }

  /** The token and the clock let pass k begin. */
  predicate InTime(c: Config, env: Env, k: nat) {
    !env.cancelled(k) && env.clock(k) - env.start <= c.timeoutSeconds
  }

  /** Pass k of the loop body. */
  function Iterate(c: Config, env: Env, k: nat, r: Trace): Flow {
    if env.cancelled(k) then Stop(r, Cancelled, CANCELLED)
    else if env.clock(k) - env.start > c.timeoutSeconds then Stop(r, TimedOut, TIMED_OUT)
    else if r.agent.iterations + 1 > c.maxIterations then Stop(Counted(r), Failed, TOO_MANY_ITERATIONS)
    else Branch(c, env, k, Counted(r))
  }

  function Measure(c: Config, r: Trace): nat {
    if c.maxIterations + 1 - r.agent.iterations >= 0 then c.maxIterations + 1 - r.agent.iterations else 0
  }

  lemma EachPassCounts(c: Config, env: Env, k: nat, r: Trace)
    requires Iterate(c, env, k, r).Goes?
    ensures var next := Iterate(c, env, k, r).run.agent.iterations;
            next == r.agent.iterations + 1 && next <= c.maxIterations
  {
  }

  function Loop(c: Config, env: Env, k: nat, r: Trace): Flow
    decreases Measure(c, r)
  {
    if Terminal(r.agent.current) then Goes(r)
    else
      var f := Iterate(c, env, k, r);
      if f.Raises? then f else Loop(c, env, k + 1, f.run)
  }

  predicate Controlled(e: Exn) {
    !e.AgentError? && e.kind != Uncontrolled
  }

  function Reraised(e: Exn): Exn {
    if Controlled(e) then e else AgentError(e)
  }

  /** The two handlers: fail the agent unless it is terminal, record the reason, raise. */
  function Handle(r: Trace, e: Exn): (Trace, Option<Exn>) {
    var b := if Terminal(r.agent.current) then r.agent else Move(r.agent, Failed).0;
    (r.(agent := b.(failure := Some(Because(e)))), Some(Reraised(e)))
  }

  function Begin(a: Agent, prompt: string): Flow {
    Outcome(Trace(a, [], []), ReceiveInput(a, prompt))
  }

  /** AgentRuntime.run: the run at its end, and the exception that reaches the caller. */
  function Execute(c: Config, env: Env, a: Agent, prompt: string): (Trace, Option<Exn>) {
    var begun := Begin(a, prompt);
    var f := if begun.Raises? then begun else Loop(c, env, 0, begun.run);
    if f.Raises? then Handle(f.run, f.exn) else (f.run, None)
  }

  // ---------------------------------------------------------------------------------------------
  // The end of a run
  // ---------------------------------------------------------------------------------------------

  lemma {:induction false} LoopLeavesTerminal(c: Config, env: Env, k: nat, r: Trace)
    ensures Loop(c, env, k, r).Goes? ==> Terminal(Loop(c, env, k, r).run.agent.current)
    decreases Measure(c, r)
  {
    if !Terminal(r.agent.current) && Iterate(c, env, k, r).Goes? {
      EachPassCounts(c, env, k, r);
      LoopLeavesTerminal(c, env, k + 1, Iterate(c, env, k, r).run);
    }
  }

  /** Whatever the model, the tools, the clock and the token do, a run leaves its agent in a terminal state. */
  lemma EveryExitIsTerminal(c: Config, env: Env, a: Agent, prompt: string)
    ensures Terminal(Execute(c, env, a, prompt).0.agent.current)
  {
    var begun := Begin(a, prompt);
    if begun.Goes? {
      LoopLeavesTerminal(c, env, 0, begun.run);
    }
    var f := if begun.Raises? then begun else Loop(c, env, 0, begun.run);
    if f.Raises? {
      FailedIsReachableUnlessTerminal(f.run.agent.current);
    }
  }

  // ---------------------------------------------------------------------------------------------
  // The invariant of the loop head
  // ---------------------------------------------------------------------------------------------

  predicate OnPath(a: Agent) {
    LegalPath(a.history) && a.history[|a.history| - 1].to == a.current
  }

  predicate Triple(s: seq<string>, j: nat)
    requires j + 2 < |s|
  {
    s[j] == s[j + 1] == s[j + 2]
  }

  predicate NoTriple(s: seq<string>) {
    forall j: nat :: j + 2 < |s| ==> !Triple(s, j)
  }

  /** Loop passes and tool calls since `entry`. */
  function Passes(entry: Agent, r: Trace): int { r.agent.iterations - entry.iterations }

  function Calls(entry: Agent, r: Trace): int { r.agent.toolCalls - entry.toolCalls }

  /** How far the planning, calling and reading passes have got, by the state they stand in. */
  predicate InStep(s: State, passes: int, calls: int) {
    match s
    case Planning => passes == 3 * calls
    case ToolRequested => passes == 3 * calls + 1
    case ProposalReady => passes == 3 * calls + 1
    case ProcessingToolResult => passes == 3 * calls - 1
    case _ => false
  }

  /** What every run since `entry` keeps. */
  predicate Traced(entry: Agent, c: Config, r: Trace) {
    && OnPath(r.agent)
    && 0 <= Calls(entry, r) == |r.executed|
    && (r.agent.toolCalls <= c.maxToolCalls || r.executed == [])
    && NoTriple(r.executed)
    && entry.messages <= r.agent.messages
  }

  /** What every loop head meets; in particular it sees four of the twelve states only. */
  predicate AtHead(entry: Agent, c: Config, r: Trace) {
    && Traced(entry, c, r)
    && InStep(r.agent.current, Passes(entry, r), Calls(entry, r))
    && (Passes(entry, r) == 0 || r.agent.iterations <= c.maxIterations)
    && |r.agent.history| == |entry.history| + 2 + Passes(entry, r) + Calls(entry, r)
    && r.tracker == r.executed
    && (r.agent.current == ProcessingToolResult ==> r.agent.result.Some?)
  }

  /** What is left of that once the run is over. */
  predicate AtEnd(entry: Agent, c: Config, r: Trace) {
    && Traced(entry, c, r)
    && 3 * Calls(entry, r) <= Passes(entry, r) + 1
    && (Calls(entry, r) == 0 || 3 * Calls(entry, r) <= c.maxIterations - entry.iterations + 1)
    && (Passes(entry, r) <= 1 || r.agent.iterations <= c.maxIterations + 1)
    && |r.agent.history| <= |entry.history| + 3 + Passes(entry, r) + Calls(entry, r)
    && (Passes(entry, r) > 0 && r.agent.iterations > c.maxIterations ==>
          |r.agent.history| <= |entry.history| + 2 + Passes(entry, r) + Calls(entry, r))
  }

  lemma MoveKeepsPath(a: Agent, to: State)
    requires OnPath(a)
    ensures OnPath(Move(a, to).0)
  {
    if Legal(a.current, to) {
      PathGrows(a.history, to);
    }
  }

  lemma NoTripleGrows(s: seq<string>, x: string)
    requires NoTriple(s) && !EndsInTriple(s + [x])
    ensures NoTriple(s + [x])
  {
    var t := s + [x];
    forall j: nat | j + 2 < |t| ensures !Triple(t, j) {
      if j + 2 < |s| {
        assert !Triple(s, j);
      }
    }
  }

  lemma BeginReachesHead(c: Config, entry: Agent, prompt: string)
    requires OnPath(entry) && entry.current == Idle
    ensures Begin(entry, prompt).Goes? && AtHead(entry, c, Begin(entry, prompt).run)
  {
    MoveKeepsPath(entry, ReceivingInput);
    var b := Move(entry, ReceivingInput).0;
    MoveKeepsPath(b.(messages := b.messages + [User(prompt)]), Planning);
  }

  /** One pass ends at the loop head again, or ends the run, normally or through a handler. */
  predicate Kept(entry: Agent, c: Config, f: Flow) {
    match f
    case Goes(r) => if Terminal(r.agent.current) then AtEnd(entry, c, r) else AtHead(entry, c, r)
    case Raises(r, e) => AtEnd(entry, c, Handle(r, e).0)
  }

  /** A loop head whose pass has been counted. */
  predicate InPass(entry: Agent, c: Config, r: Trace) {
    var a := r.agent.(iterations := r.agent.iterations - 1);
    AtHead(entry, c, r.(agent := a)) && r.agent.iterations <= c.maxIterations
  }

  lemma HandlerKeepsPath(a: Agent)
    requires OnPath(a)
    ensures OnPath(if Terminal(a.current) then a else Move(a, Failed).0)
  {
    MoveKeepsPath(a, Failed);
  }

  /** A run that ends where it stands, or after one more counted pass, by one last transition. */
  lemma HeadEnds(entry: Agent, c: Config, r: Trace, a: Agent)
    requires AtHead(entry, c, r) && OnPath(a)
    requires a.toolCalls == r.agent.toolCalls && a.messages == r.agent.messages && |a.history| == |r.agent.history| + 1
    requires a.iterations == r.agent.iterations || a.iterations == r.agent.iterations + 1 > c.maxIterations
    ensures AtEnd(entry, c, r.(agent := a))
  {
  }

  lemma StopKeeps(entry: Agent, c: Config, r: Trace, to: State, e: Exn)
    requires AtHead(entry, c, r) && to in {Cancelled, TimedOut}
    ensures Kept(entry, c, Stop(r, to, e))
  {
    MoveKeepsPath(r.agent, to);
    HeadEnds(entry, c, r, Move(r.agent, to).0.(failure := Some(Because(e))));
  }

  lemma LimitKeeps(entry: Agent, c: Config, r: Trace, e: Exn)
    requires AtHead(entry, c, r)
    requires r.agent.iterations + 1 > c.maxIterations
    ensures Kept(entry, c, Stop(Counted(r), Failed, e))
  {
    MoveKeepsPath(Counted(r).agent, Failed);
    HeadEnds(entry, c, r, Move(Counted(r).agent, Failed).0.(failure := Some(Because(e))));
  }

  lemma PlannedMoveKeeps(entry: Agent, c: Config, r: Trace, b: Agent, to: State)
    requires InPass(entry, c, r) && r.agent.current == Planning
    requires b.history == r.agent.history && b.current == Planning && r.agent.messages <= b.messages
    requires b.iterations == r.agent.iterations && b.toolCalls == r.agent.toolCalls
    requires to in {ToolRequested, ProposalReady, Completed}
    ensures Kept(entry, c, Outcome(r, Move(b, to)))
  {
    MoveKeepsPath(b, to);
  }

  lemma PlanKeeps(entry: Agent, c: Config, r: Trace, response: Result<ModelResponse, Exn>)
    requires InPass(entry, c, r) && r.agent.current == Planning
    ensures Kept(entry, c, Outcome(r, Plan(r.agent, response)))
  {
    match response
    case Err(e) => HandlerKeepsPath(r.agent);
    case Ok(m) =>
      var b := Heard(r.agent, m.content);
      if m.toolCalls != [] {
        PlannedMoveKeeps(entry, c, r, b.(pending := Some(m.toolCalls[0])), ToolRequested);
      } else if m.proposes {
        PlannedMoveKeeps(entry, c, r, b.(proposal := Some(m.payload)), ProposalReady);
      } else {
        PlannedMoveKeeps(entry, c, r, b, Completed);
      }
  }

  lemma ReadKeeps(entry: Agent, c: Config, r: Trace, json: Result<string, Exn>)
    requires InPass(entry, c, r) && r.agent.current == ProcessingToolResult
    ensures Kept(entry, c, Outcome(r, ReadResult(r.agent, json)))
  {
    var o := r.agent.result.value;
    if o.success && json.Err? {
      HandlerKeepsPath(r.agent);
    } else {
      MoveKeepsPath(r.agent.(messages := r.agent.messages + [Answered(o, json)]), Planning);
    }
  }

  lemma ProposeKeeps(entry: Agent, c: Config, r: Trace, built: Option<Exn>)
    requires InPass(entry, c, r) && r.agent.current == ProposalReady
    ensures Kept(entry, c, Outcome(r, Propose(r.agent, built)))
  {
    HandlerKeepsPath(r.agent);
    MoveKeepsPath(r.agent, WaitingForGateway);
    MoveKeepsPath(Move(r.agent, WaitingForGateway).0, Completed);
  }

  lemma CallRaisesKeeps(entry: Agent, c: Config, r: Trace, e: Exn)
    requires InPass(entry, c, r) && r.agent.current == ToolRequested
    requires r.agent.toolCalls < c.maxToolCalls && Requested(r.agent).Some?
    requires !EndsInTriple(Noted(r).tracker) && NoTriple(Noted(r).tracker)
    ensures Kept(entry, c, Outcome(Noted(r), RunTool(r.agent, Err(e))))
  {
    MoveKeepsPath(r.agent, WaitingForTool);
    var b := Move(r.agent, WaitingForTool).0;
    HandlerKeepsPath(b.(toolCalls := b.toolCalls + 1));
  }

  lemma CallKeeps(entry: Agent, c: Config, r: Trace, outcome: Result<ToolOutcome, Exn>)
    requires InPass(entry, c, r) && r.agent.current == ToolRequested
    requires r.agent.toolCalls < c.maxToolCalls && Requested(r.agent).Some?
    requires !EndsInTriple(Noted(r).tracker) && NoTriple(Noted(r).tracker)
    ensures Kept(entry, c, Outcome(Noted(r), RunTool(r.agent, outcome)))
  {
    match outcome
    case Err(e) => CallRaisesKeeps(entry, c, r, e);
    case Ok(o) =>
      MoveKeepsPath(r.agent, WaitingForTool);
      var b := Move(r.agent, WaitingForTool).0;
      MoveKeepsPath(b.(toolCalls := b.toolCalls + 1, result := Some(o), pending := None), ProcessingToolResult);
  }

  lemma RunToolKeeps(entry: Agent, c: Config, r: Trace, outcome: Result<ToolOutcome, Exn>)
    requires InPass(entry, c, r) && r.agent.current == ToolRequested
    requires r.agent.toolCalls < c.maxToolCalls
    requires !EndsInTriple(Noted(r).tracker)
    ensures Kept(entry, c, Outcome(Noted(r), RunTool(r.agent, outcome)))
  {
    if Requested(r.agent).Some? {
      NoTripleGrows(r.tracker, Signature(r.agent));
      CallKeeps(entry, c, r, outcome);
    } else {
      MoveKeepsPath(r.agent, Failed);
    }
  }

  lemma RequestKeeps(entry: Agent, c: Config, env: Env, k: nat, r: Trace)
    requires InPass(entry, c, r) && r.agent.current == ToolRequested
    ensures Kept(entry, c, RequestTool(c, env, k, r))
  {
    MoveKeepsPath(r.agent, Failed);
    if r.agent.toolCalls < c.maxToolCalls && !EndsInTriple(Noted(r).tracker) {
      RunToolKeeps(entry, c, r, env.tool(k));
    }
  }

  lemma BranchKeeps(entry: Agent, c: Config, env: Env, k: nat, r: Trace)
    requires InPass(entry, c, r)
    ensures Kept(entry, c, Branch(c, env, k, r))
  {
    match r.agent.current
    case Planning => PlanKeeps(entry, c, r, env.model(k));
    case ToolRequested => RequestKeeps(entry, c, env, k, r);
    case ProcessingToolResult => ReadKeeps(entry, c, r, env.json(k));
    case ProposalReady => ProposeKeeps(entry, c, r, env.proposal(k));
  }

  lemma CountedIsInPass(entry: Agent, c: Config, r: Trace)
    requires AtHead(entry, c, r) && r.agent.iterations + 1 <= c.maxIterations
    ensures InPass(entry, c, Counted(r))
  {
    var s := Counted(r);
    assert s.(agent := s.agent.(iterations := s.agent.iterations - 1)) == r;
  }

  lemma CheckKeeps(entry: Agent, c: Config, env: Env, k: nat, r: Trace)
    requires AtHead(entry, c, r) && !InTime(c, env, k)
    ensures Kept(entry, c, Iterate(c, env, k, r))
  {
    if env.cancelled(k) {
      StopKeeps(entry, c, r, Cancelled, CANCELLED);
    } else {
      StopKeeps(entry, c, r, TimedOut, TIMED_OUT);
    }
  }

  lemma IterateKeeps(entry: Agent, c: Config, env: Env, k: nat, r: Trace)
    requires AtHead(entry, c, r)
    ensures Kept(entry, c, Iterate(c, env, k, r))
  {
    if !InTime(c, env, k) {
      CheckKeeps(entry, c, env, k, r);
    } else if r.agent.iterations + 1 > c.maxIterations {
      LimitKeeps(entry, c, r, TOO_MANY_ITERATIONS);
      assert Iterate(c, env, k, r) == Stop(Counted(r), Failed, TOO_MANY_ITERATIONS);
    } else {
      CountedIsInPass(entry, c, r);
      BranchKeeps(entry, c, env, k, Counted(r));
      assert Iterate(c, env, k, r) == Branch(c, env, k, Counted(r));
    }
  }

  lemma {:induction false} LoopKeeps(entry: Agent, c: Config, env: Env, k: nat, r: Trace)
    requires AtHead(entry, c, r)
    ensures var f := Loop(c, env, k, r);
            AtEnd(entry, c, if f.Raises? then Handle(f.run, f.exn).0 else f.run)
    decreases Measure(c, r)
  {
    IterateKeeps(entry, c, env, k, r);
    var f := Iterate(c, env, k, r);
    if f.Goes? && !Terminal(f.run.agent.current) {
      EachPassCounts(c, env, k, r);
      LoopKeeps(entry, c, env, k + 1, f.run);
    }
  }

  // ---------------------------------------------------------------------------------------------
  // Whole runs
  // ---------------------------------------------------------------------------------------------

  lemma RunKeeps(c: Config, env: Env, entry: Agent, prompt: string)
    requires OnPath(entry) && entry.current == Idle
    ensures AtEnd(entry, c, Execute(c, env, entry, prompt).0)
  {
    BeginReachesHead(c, entry, prompt);
    LoopKeeps(entry, c, env, 0, Begin(entry, prompt).run);
  }

  /** The history of every finished run is a legal path, terminal at its end only, and of bounded length. */
  lemma HistoryOfEveryRun(c: Config, env: Env, prompt: string)
    requires c.Valid()
    ensures var a := Execute(c, env, NewAgent(Idle), prompt).0.agent;
            && LegalPath(a.history)
            && a.history[|a.history| - 1].to == a.current
            && Terminal(a.current)
            && (forall i :: 0 <= i < |a.history| - 1 ==> !Terminal(a.history[i].to))
            && |a.history| <= 4 + c.maxIterations + a.toolCalls
            && |a.history| <= 2 * c.maxIterations + 4
  {
    RunKeeps(c, env, NewAgent(Idle), prompt);
    EveryExitIsTerminal(c, env, NewAgent(Idle), prompt);
    TerminalOnlyLast(Execute(c, env, NewAgent(Idle), prompt).0.agent.history);
  }

  /**
    The two limits together: a call takes three passes, so a fresh run makes at most a third as many calls
    as it may make passes, and never the same call three times in a row.
   */
  lemma ToolCallsOfEveryRun(c: Config, env: Env, prompt: string)
    requires c.Valid()
    ensures var (r, _) := Execute(c, env, NewAgent(Idle), prompt);
            && |r.executed| == r.agent.toolCalls
            && 3 * r.agent.toolCalls <= r.agent.iterations + 1
            && r.agent.toolCalls <= c.maxToolCalls
            && r.agent.toolCalls <= (c.maxIterations + 1) / 3
            && (c.maxIterations == 10 && c.maxToolCalls == 5 ==> r.agent.toolCalls <= 3)
            && NoTriple(r.executed)
  {
    RunKeeps(c, env, NewAgent(Idle), prompt);
  }

  /** An agent that is not IDLE is never run: it fails at once, or stays in the terminal state it is in. */
  lemma OnlyIdleAgentsRun(c: Config, env: Env, a: Agent, prompt: string)
    ensures var (r, e) := Execute(c, env, a, prompt);
            a.current != Idle ==>
              && e == Some(ILLEGAL) && r.executed == []
              && r.agent.current == (if Terminal(a.current) then a.current else Failed)
              && r.agent.iterations == a.iterations && r.agent.messages == a.messages
  {
    FailedIsReachableUnlessTerminal(a.current);
  }

  /** What the state and the error of a finished run say about the checks its passes met. */
  predicate Explained(c: Config, env: Env, n: nat, a: Agent, e: Option<Exn>) {
    && (forall j: nat :: j < n ==> InTime(c, env, j))
    && (a.current == Cancelled ==> env.cancelled(n) && e == Some(CANCELLED))
    && (a.current == TimedOut ==> !env.cancelled(n) && !InTime(c, env, n) && e == Some(TIMED_OUT))
    && (a.current == Completed ==> e == None)
    && (e.None? ==> a.current == Completed || (a.current == Failed && Requested(a).None?))
    && (e.Some? ==> a.failure.Some? && a.failure.value.Because? && e.value == Reraised(a.failure.value.exn))
  }

  function Reported(f: Flow): (Agent, Option<Exn>) {
    if f.Goes? then (f.run.agent, None) else (Handle(f.run, f.exn).0.agent, Handle(f.run, f.exn).1)
  }

  predicate AtNode(a: Agent) {
    && a.current in {Planning, ToolRequested, ProcessingToolResult, ProposalReady}
    && (a.current == ProcessingToolResult ==> a.result.Some?)
  }

  /** How a node leaves the agent: only an empty request fails it without raising. */
  predicate Ordinary(a: Agent, f: Flow) {
    && f.run.agent.iterations == a.iterations
    && f.run.agent.current !in {Cancelled, TimedOut}
    && (f.Goes? && f.run.agent.current == Failed ==> Requested(f.run.agent).None?)
    && (f.Raises? ==> f.run.agent.current != Completed)
  }

  lemma RequestsAreOrdinary(c: Config, env: Env, k: nat, r: Trace)
    requires r.agent.current == ToolRequested
    ensures Ordinary(r.agent, RequestTool(c, env, k, r))
  {
    var b := Move(r.agent, WaitingForTool).0;
    assert b.current == WaitingForTool && Ordinary(r.agent, Outcome(Noted(r), RunTool(r.agent, env.tool(k))));
  }

  lemma NodesAreOrdinary(c: Config, env: Env, k: nat, r: Trace)
    requires AtNode(r.agent)
    ensures Ordinary(r.agent, Branch(c, env, k, r))
  {
    if r.agent.current == ToolRequested {
      RequestsAreOrdinary(c, env, k, r);
    }
  }

  lemma OrdinaryIsExplained(c: Config, env: Env, n: nat, a: Agent, f: Flow)
    requires Ordinary(a, f) && forall j: nat :: j < n ==> InTime(c, env, j)
    requires f.Raises? || Terminal(f.run.agent.current)
    ensures Explained(c, env, n, Reported(f).0, Reported(f).1) && Reported(f).0.iterations == a.iterations
  {
    if f.Raises? {
      FailedIsReachableUnlessTerminal(f.run.agent.current);
    }
  }

  predicate Over(f: Flow) {
    f.Raises? || Terminal(f.run.agent.current)
  }

  lemma ChecksAreExplained(c: Config, env: Env, k: nat, r: Trace)
    requires AtNode(r.agent) && forall j: nat :: j < k ==> InTime(c, env, j)
    requires !InTime(c, env, k)
    ensures var f := Iterate(c, env, k, r);
            f.Raises? && Reported(f).0.iterations == r.agent.iterations
              && Explained(c, env, k, Reported(f).0, Reported(f).1)
  {
  }

  predicate EndsExplained(c: Config, env: Env, base: int, a: Agent, e: Option<Exn>) {
    a.iterations >= base && Explained(c, env, a.iterations - base, a, e)
  }

  lemma PassIsExplained(c: Config, env: Env, k: nat, r: Trace)
    requires AtNode(r.agent) && forall j: nat :: j < k ==> InTime(c, env, j)
    ensures var f := Iterate(c, env, k, r);
            if !Over(f) then InTime(c, env, k)
            else EndsExplained(c, env, r.agent.iterations - k, Reported(f).0, Reported(f).1)
  {
    if !InTime(c, env, k) {
      ChecksAreExplained(c, env, k, r);
    } else {
      var s := Counted(r);
      var f := Iterate(c, env, k, r);
      if s.agent.iterations <= c.maxIterations {
        NodesAreOrdinary(c, env, k, s);
      }
      assert Ordinary(s.agent, f);
      if Over(f) {
        OrdinaryIsExplained(c, env, k + 1, s.agent, f);
      }
    }
  }

  lemma LastPass(c: Config, env: Env, k: nat, r: Trace)
    requires !Terminal(r.agent.current) && Over(Iterate(c, env, k, r))
    ensures Loop(c, env, k, r) == Iterate(c, env, k, r)
  {
  }

  lemma NextPass(entry: Agent, c: Config, env: Env, k: nat, r: Trace) returns (next: Trace)
    requires AtHead(entry, c, r) && !Over(Iterate(c, env, k, r))
    ensures next == Iterate(c, env, k, r).run && AtHead(entry, c, next) && Passes(entry, next) == Passes(entry, r) + 1
    ensures Measure(c, next) < Measure(c, r)
    ensures Loop(c, env, k, r) == Loop(c, env, k + 1, next)
  {
    next := Iterate(c, env, k, r).run;
    IterateKeeps(entry, c, env, k, r);
    EachPassCounts(c, env, k, r);
  }

  /** The loop from pass k on ends in a way that the checks explain. */
  predicate LoopExplained(entry: Agent, c: Config, env: Env, k: nat, r: Trace) {
    var (a, e) := Reported(Loop(c, env, k, r));
    EndsExplained(c, env, entry.iterations, a, e)
  }

  lemma LastPassIsExplained(entry: Agent, c: Config, env: Env, k: nat, r: Trace)
    requires AtHead(entry, c, r) && Passes(entry, r) == k && Over(Iterate(c, env, k, r))
    requires forall j: nat :: j < k ==> InTime(c, env, j)
    ensures LoopExplained(entry, c, env, k, r)
  {
    PassIsExplained(c, env, k, r);
    LastPass(c, env, k, r);
  }

  lemma NextPassIsInTime(entry: Agent, c: Config, env: Env, k: nat, r: Trace) returns (next: Trace)
    requires AtHead(entry, c, r) && Passes(entry, r) == k && !Over(Iterate(c, env, k, r))
    requires forall j: nat :: j < k ==> InTime(c, env, j)
    ensures AtHead(entry, c, next) && Passes(entry, next) == k + 1 && InTime(c, env, k)
    ensures Measure(c, next) < Measure(c, r)
    ensures LoopExplained(entry, c, env, k + 1, next) ==> LoopExplained(entry, c, env, k, r)
  {
    PassIsExplained(c, env, k, r);
    next := NextPass(entry, c, env, k, r);
  }

  /** A loop head after k passes, all of them in time. */
  predicate Ready(entry: Agent, c: Config, env: Env, k: nat, r: Trace) {
    AtHead(entry, c, r) && Passes(entry, r) == k && forall j: nat :: j < k ==> InTime(c, env, j)
  }

  lemma OnePass(entry: Agent, c: Config, env: Env, k: nat, r: Trace) returns (next: Option<Trace>)
    requires Ready(entry, c, env, k, r)
    ensures next.None? ==> LoopExplained(entry, c, env, k, r)
    ensures next.Some? ==> Ready(entry, c, env, k + 1, next.value) && Measure(c, next.value) < Measure(c, r)
    ensures next.Some? && LoopExplained(entry, c, env, k + 1, next.value) ==> LoopExplained(entry, c, env, k, r)
  {
    if Over(Iterate(c, env, k, r)) {
      LastPassIsExplained(entry, c, env, k, r);
      next := None;
    } else {
      var s := NextPassIsInTime(entry, c, env, k, r);
      next := Some(s);
    }
  }

  lemma {:induction false} LoopIsExplained(entry: Agent, c: Config, env: Env, k: nat, r: Trace)
    requires Ready(entry, c, env, k, r)
    ensures LoopExplained(entry, c, env, k, r)
    decreases Measure(c, r)
  {
    var next := OnePass(entry, c, env, k, r);
    if next.Some? {
      LoopIsExplained(entry, c, env, k + 1, next.value);
    }
  }

  /**
    How runs end. No pass starts once the token or the clock is seen to have run out: a CANCELLED or
    TIMED_OUT agent stopped at the first such check, and no other ending saw one. COMPLETED is reported
    without an error, any error is recorded as the failure reason, and the one FAILED ending reported
    without an error is the model's request for an empty call.
   */
  lemma HowRunsEnd(c: Config, env: Env, entry: Agent, prompt: string)
    requires OnPath(entry) && entry.current == Idle
    ensures var (r, e) := Execute(c, env, entry, prompt);
            EndsExplained(c, env, entry.iterations, r.agent, e)
  {
    BeginReachesHead(c, entry, prompt);
    LoopIsExplained(entry, c, env, 0, Begin(entry, prompt).run);
  }
}
