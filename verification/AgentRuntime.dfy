/**
  The agent runtime as it changes an AgentState in place, proved to take every run `AgentRuns` describes.
  A method that can raise returns the exception; the environment is a constant of the runtime.
 */
module AgentRuntimes {
  import opened Outcomes
  import opened AgentMachine
  import opened AgentRuns

  class AgentState {
    var current: State
    var history: seq<StepRecord>
    var messages: seq<Message>
    var pending: Option<ToolCall>
    var result: Option<ToolOutcome>
    var proposal: Option<string>
    var iterations: int
    var toolCalls: int
    var failure: Option<Reason>

    function Snapshot(): Agent
      reads this
    {
      Agent(current, history, messages, pending, result, proposal, iterations, toolCalls, failure)
    }

    constructor (initial: State)
      ensures Snapshot() == NewAgent(initial)
      ensures OnPath(Snapshot())
    {
      current := initial;
      history, messages := [StepRecord(0, Idle, initial)], [];
      pending, result, proposal, failure := None, None, None, None;
      iterations, toolCalls := 0, 0;
    }

    method TransitionTo(to: State) returns (e: Option<Exn>)
      modifies this
      ensures (Snapshot(), e) == Move(old(Snapshot()), to)
      ensures OnPath(old(Snapshot())) ==> OnPath(Snapshot())
    {
      EveryMoveKeepsPath(Snapshot(), to);
      if !Legal(current, to) {
        return Some(ILLEGAL);
      }
      history := history + [StepRecord(|history|, current, to)];
      current := to;
      return None;
    }

    method AddMessage(m: Message)
      modifies this
      ensures Snapshot() == old(Snapshot()).(messages := old(messages) + [m])
    {
      messages := messages + [m];
    }

    method SetPendingToolCall(call: ToolCall)
      modifies this
      ensures Snapshot() == old(Snapshot()).(pending := Some(call))
    {
      pending := Some(call);
    }

    method ClearPendingToolCall()
      modifies this
      ensures Snapshot() == old(Snapshot()).(pending := None)
    {
      pending := None;
    }

    method SetToolResult(r: ToolOutcome)
      modifies this
      ensures Snapshot() == old(Snapshot()).(result := Some(r))
    {
      result := Some(r);
    }

    method SetProposalPayload(p: string)
      modifies this
      ensures Snapshot() == old(Snapshot()).(proposal := Some(p))
    {
      proposal := Some(p);
    }

    method IncrementIteration() returns (n: int)
      modifies this
      ensures Snapshot() == old(Snapshot()).(iterations := n) && n == old(iterations) + 1
    {
      iterations := iterations + 1;
      return iterations;
    }

    method IncrementToolCall() returns (n: int)
      modifies this
      ensures Snapshot() == old(Snapshot()).(toolCalls := n) && n == old(toolCalls) + 1
    {
      toolCalls := toolCalls + 1;
      return toolCalls;
    }

    method SetFailureReason(reason: Reason)
      modifies this
      ensures Snapshot() == old(Snapshot()).(failure := Some(reason))
    {
      failure := Some(reason);
    }
  }

  /** A transition keeps a history on its path, whether it is taken or refused. */
  lemma EveryMoveKeepsPath(a: Agent, to: State)
    ensures OnPath(a) ==> OnPath(Move(a, to).0)
  {
    if OnPath(a) {
      MoveKeepsPath(a, to);
    }
  }

  // ---------------------------------------------------------------------------------------------
  // The nodes
  // ---------------------------------------------------------------------------------------------

  method NodeReceiveInput(state: AgentState, prompt: string) returns (e: Option<Exn>)
    modifies state
    ensures (state.Snapshot(), e) == ReceiveInput(old(state.Snapshot()), prompt)
  {
    e := state.TransitionTo(ReceivingInput);
    if e.Some? {
      return;
    }
    state.AddMessage(User(prompt));
    e := state.TransitionTo(Planning);
  }

  method NodePlanning(state: AgentState, response: Result<ModelResponse, Exn>) returns (e: Option<Exn>)
    modifies state
    ensures (state.Snapshot(), e) == Plan(old(state.Snapshot()), response)
  {
    if response.Err? {
      return Some(response.error);
    }
    var r := response.value;
    if r.content != "" {
      state.AddMessage(Assistant(r.content));
    }
    if r.toolCalls != [] {
      state.SetPendingToolCall(r.toolCalls[0]);
      e := state.TransitionTo(ToolRequested);
    } else if r.proposes {
      state.SetProposalPayload(r.payload);
      e := state.TransitionTo(ProposalReady);
    } else {
      e := state.TransitionTo(Completed);
    }
  }

  method NodeToolExecution(state: AgentState, outcome: Result<ToolOutcome, Exn>) returns (e: Option<Exn>)
    modifies state
    ensures (state.Snapshot(), e) == RunTool(old(state.Snapshot()), outcome)
  {
    if Requested(state.Snapshot()).None? {
      e := state.TransitionTo(Failed);
      return;
    }
    e := state.TransitionTo(WaitingForTool);
    if e.Some? {
      return;
    }
    var _ := state.IncrementToolCall();
    if outcome.Err? {
      return Some(outcome.error);
    }
    state.SetToolResult(outcome.value);
    state.ClearPendingToolCall();
    e := state.TransitionTo(ProcessingToolResult);
  }

  method NodeProcessToolResult(state: AgentState, json: Result<string, Exn>) returns (e: Option<Exn>)
    modifies state
    ensures (state.Snapshot(), e) == ReadResult(old(state.Snapshot()), json)
  {
    if state.result.None? {
      e := state.TransitionTo(Failed);
      return;
    }
    var r := state.result.value;
    if r.success {
      if json.Err? {
        return Some(json.error);
      }
      state.AddMessage(ToolData(json.value, r.toolName));
    } else {
      state.AddMessage(ToolError(r.errorText, r.toolName));
    }
    e := state.TransitionTo(Planning);
  }

  method NodePrepareProposal(state: AgentState, built: Option<Exn>) returns (e: Option<Exn>)
    modifies state
    ensures (state.Snapshot(), e) == Propose(old(state.Snapshot()), built)
  {
    if built.Some? {
      return built;
    }
    e := state.TransitionTo(WaitingForGateway);
    if e.Some? {
      return;
    }
    e := state.TransitionTo(Completed);
  }

  method NodeFinalize(state: AgentState, success: bool, reason: Reason) returns (e: Option<Exn>)
    modifies state
    ensures (state.Snapshot(), e) == Finalize(old(state.Snapshot()), success, reason)
    ensures e.None? ==>
              && state.failure == Some(reason)
              && state.current == (if old(Terminal(state.current)) then old(state.current)
                                   else if success then Completed else Failed)
    ensures e.Some? ==> state.failure == old(state.failure) && state.current == old(state.current)
  {
    if !Terminal(state.current) {
      e := state.TransitionTo(if success then Completed else Failed);
      if e.Some? {
        return;
      }
    }
    state.SetFailureReason(reason);
    return None;
  }

  // ---------------------------------------------------------------------------------------------
  // The runtime
  // ---------------------------------------------------------------------------------------------

  function Flowed(a: Agent, tracker: seq<string>, executed: seq<string>, e: Option<Exn>): Flow {
    if e.Some? then Raises(Trace(a, tracker, executed), e.value) else Goes(Trace(a, tracker, executed))
  }

  class AgentRuntime {
    const config: Config
    const env: Env

    constructor (config: Config, env: Env)
      requires config.Valid()
      ensures this.config == config && this.env == env
    {
      this.config, this.env := config, env;
    }

    /** Move to a terminal state, note why, raise. */
    method Abandon(state: AgentState, to: State, why: Exn) returns (e: Option<Exn>)
      modifies state
      ensures forall tracker, executed ::
                Flowed(state.Snapshot(), tracker, executed, e) ==
                  Stop(Trace(old(state.Snapshot()), tracker, executed), to, why)
    {
      e := state.TransitionTo(to);
      if e.Some? {
        return;
      }
      state.SetFailureReason(Because(why));
      return Some(why);
    }

    method CallTool(state: AgentState, k: nat, tracker: seq<string>, ghost executed: seq<string>)
      returns (e: Option<Exn>, tracker': seq<string>, ghost executed': seq<string>)
      modifies state
      ensures Flowed(state.Snapshot(), tracker', executed', e)
           == RequestTool(config, env, k, Trace(old(state.Snapshot()), tracker, executed))
    {
      tracker', executed' := tracker, executed;
      if state.toolCalls >= config.maxToolCalls {
        e := Abandon(state, Failed, TOO_MANY_TOOL_CALLS);
        return;
      }
      ghost var noted := Noted(Trace(state.Snapshot(), tracker, executed));
      tracker', executed' := tracker' + [Signature(state.Snapshot())], noted.executed;
      if EndsInTriple(tracker') {
        e := Abandon(state, Failed, TOOL_LOOP);
        return;
      }
      e := NodeToolExecution(state, env.tool(k));
    }

    method Dispatch(state: AgentState, k: nat, tracker: seq<string>, ghost executed: seq<string>)
      returns (e: Option<Exn>, tracker': seq<string>, ghost executed': seq<string>)
      modifies state
      ensures Flowed(state.Snapshot(), tracker', executed', e)
           == Branch(config, env, k, Trace(old(state.Snapshot()), tracker, executed))
    {
      tracker', executed' := tracker, executed;
      match state.current
      case Planning => e := NodePlanning(state, env.model(k));
      case ToolRequested => e, tracker', executed' := CallTool(state, k, tracker, executed);
      case ProcessingToolResult => e := NodeProcessToolResult(state, env.json(k));
      case ProposalReady => e := NodePrepareProposal(state, env.proposal(k));
      case WaitingForGateway => e := NodeFinalize(state, true, ProposalReadyForGateway);
      case _ => e := NodeFinalize(state, false, UnhandledState);
    }

    method Pass(state: AgentState, k: nat, tracker: seq<string>, ghost executed: seq<string>)
      returns (e: Option<Exn>, tracker': seq<string>, ghost executed': seq<string>)
      modifies state
      ensures Flowed(state.Snapshot(), tracker', executed', e)
           == Iterate(config, env, k, Trace(old(state.Snapshot()), tracker, executed))
    {
      tracker', executed' := tracker, executed;
      if env.cancelled(k) {
        e := Abandon(state, Cancelled, AgentRuns.CANCELLED);
        return;
      }
      if env.clock(k) - env.start > config.timeoutSeconds {
        e := Abandon(state, TimedOut, TIMED_OUT);
        return;
      }
      var n := state.IncrementIteration();
      if n > config.maxIterations {
        e := Abandon(state, Failed, TOO_MANY_ITERATIONS);
        return;
      }
      e, tracker', executed' := Dispatch(state, k, tracker, executed);
    }

    /** The body of the try block: receive the input, then loop until the agent is terminal. */
    method Drive(state: AgentState, prompt: string)
      returns (e: Option<Exn>, ghost tracker: seq<string>, ghost executed: seq<string>)
      modifies state
      ensures var begun := Begin(old(state.Snapshot()), prompt);
              var flow := if begun.Raises? then begun else Loop(config, env, 0, begun.run);
              Flowed(state.Snapshot(), tracker, executed, e) == flow
    {
      var requests: seq<string> := [];
      tracker, executed := [], [];
      e := NodeReceiveInput(state, prompt);
      if e.Some? {
        return;
      }
      ghost var whole := Loop(config, env, 0, Trace(state.Snapshot(), [], []));
      var k := 0;
      while !Terminal(state.current)
        invariant e == None && tracker == requests
        invariant whole == Loop(config, env, k, Trace(state.Snapshot(), requests, executed))
        decreases Measure(config, Trace(state.Snapshot(), requests, executed))
      {
        ghost var before := Trace(state.Snapshot(), requests, executed);
        e, requests, executed := Pass(state, k, requests, executed);
        tracker := requests;
        if e.Some? {
          return;
        }
        EachPassCounts(config, env, k, before);
        k := k + 1;
      }
    }

    method Run(state: AgentState, prompt: string) returns (e: Option<Exn>)
      modifies state
      ensures var (r, reported) := Execute(config, env, old(state.Snapshot()), prompt);
              state.Snapshot() == r.agent && e == reported
      ensures Terminal(state.current)
    {
      EveryExitIsTerminal(config, env, state.Snapshot(), prompt);
      var raised, _, _ := Drive(state, prompt);
      if raised.None? {
        return None;
      }
      if !Terminal(state.current) {
        var _ := state.TransitionTo(Failed);
      }
      state.SetFailureReason(Because(raised.value));
      return Some(if Controlled(raised.value) then raised.value else AgentRuns.AgentError(raised.value));
    }
  }
}
