/** The twelve lifecycle states of an agent and the transitions between them. */
module AgentMachine {

  datatype State =
    | Idle | ReceivingInput | Planning | ToolRequested | WaitingForTool | ProcessingToolResult
    | ProposalReady | WaitingForGateway
    | Completed | Failed | Cancelled | TimedOut

  predicate Terminal(s: State) {
    s in {Completed, Failed, Cancelled, TimedOut}
  }

  function Allowed(s: State): set<State> {
    match s
    case Idle => {ReceivingInput, Failed, Cancelled}
    case ReceivingInput => {Planning, Failed, Cancelled, TimedOut}
    case Planning => {ToolRequested, ProposalReady, Completed, Failed, Cancelled, TimedOut}
    case ToolRequested => {WaitingForTool, Failed, Cancelled, TimedOut}
    case WaitingForTool => {ProcessingToolResult, Failed, Cancelled, TimedOut}
    case ProcessingToolResult => {Planning, ProposalReady, Failed, Cancelled, TimedOut}
    case ProposalReady => {WaitingForGateway, Completed, Failed, Cancelled, TimedOut}
    case WaitingForGateway => {Completed, Failed, Cancelled, TimedOut}
    case _ => {}
  }

  /** validate_transition: a terminal state is refused before the table is looked up. */
  predicate Legal(from: State, to: State) {
    !Terminal(from) && to in Allowed(from)
  }

  datatype StepRecord = StepRecord(index: nat, from: State, to: State)

  predicate Follows(h: seq<StepRecord>, i: nat)
    requires 0 < i < |h|
  {
    h[i].index == i && h[i].from == h[i - 1].to && Legal(h[i].from, h[i].to)
  }

  /** A history as a legal path through the machine, from the initial record on. */
  predicate LegalPath(h: seq<StepRecord>) {
    && h != []
    && h[0].index == 0 && h[0].from == Idle
    && (forall i :: 0 < i < |h| ==> Follows(h, i))
  }

  /** Only the last record of a legal path can have reached a terminal state. */
  lemma TerminalOnlyLast(h: seq<StepRecord>)
    requires LegalPath(h)
    ensures forall i :: 0 <= i < |h| - 1 ==> !Terminal(h[i].to)
  {
    forall i | 0 <= i < |h| - 1 ensures !Terminal(h[i].to) {
      assert Follows(h, i + 1);
    }
  }

  lemma PathGrows(h: seq<StepRecord>, to: State)
    requires LegalPath(h) && Legal(h[|h| - 1].to, to)
    ensures LegalPath(h + [StepRecord(|h|, h[|h| - 1].to, to)])
  {
    var next := h + [StepRecord(|h|, h[|h| - 1].to, to)];
    forall i | 0 < i < |next| ensures Follows(next, i) {
      if i < |h| {
        assert Follows(h, i);
      }
    }
  }

  /** FAILED can be entered from every state a run can still leave, which is what the error handlers need. */
  lemma FailedIsReachableUnlessTerminal(s: State)
    ensures Legal(s, Failed) <==> !Terminal(s)
    ensures Allowed(s) == {} <==> Terminal(s)
  {
    if !Terminal(s) {
      assert Failed in Allowed(s);
    }
  }

  /**
    The table read backwards: no tool runs unless it was requested, nothing is requested or proposed but by
    planning or on a tool's result, and nothing waits for the gateway that is not a proposal.
   */
  lemma EnteredFromIff(from: State, to: State)
    ensures Legal(from, to) <==>
            match to
            case Idle => false
            case ReceivingInput => from == Idle
            case Planning => from in {ReceivingInput, ProcessingToolResult}
            case ToolRequested => from == Planning
            case WaitingForTool => from == ToolRequested
            case ProcessingToolResult => from == WaitingForTool
            case ProposalReady => from in {Planning, ProcessingToolResult}
            case WaitingForGateway => from == ProposalReady
            case Completed => from in {Planning, ProposalReady, WaitingForGateway}
            case TimedOut => !Terminal(from) && from != Idle
            case _ => !Terminal(from)
  {
  }
}
