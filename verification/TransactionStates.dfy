/** The life of a transaction: creation under an idempotency key, and its state machine. */
module TransactionStates {

  datatype State =
    | Draft | Proposed | Validating | Rejected | StepUpRequired | UserApproved | Reserved | Authorized
    | Executing | Success | Failure | Committed | RolledBack | Completed | Receipt | Expired | Consumed
    | Unlisted(text: string)  // a state column or a target that is no member of the enumeration

  function Next(s: State): set<State> {
    match s
    case Draft => {Proposed}
    case Proposed => {Validating}
    case Validating => {Rejected, StepUpRequired, Reserved}
    case StepUpRequired => {UserApproved}
    case UserApproved => {Reserved}
    case Reserved => {Authorized}
    case Authorized => {Executing}
    case Executing => {Success, Failure, Committed, RolledBack}
    case Success => {Committed}
    case Failure => {RolledBack}
    case Committed => {Completed}
    case RolledBack => {Completed}
    case Completed => {Receipt}
    case _ => {}
  }

  predicate Terminal(s: State) {
    s in {Rejected, Completed, Expired, Receipt}
  }

  /** transition_transaction_state refuses to leave a terminal state before it looks at the table. */
  predicate CanMove(from: State, to: State) {
    !Terminal(from) && to in Next(from)
  }

  /**
    The moves read backwards: a transaction is executed only when authorized, authorized only when its budget
    is reserved, and reserved only when validated or approved by a user, who is asked only after validation.
   */
  lemma EnteredFromIff(from: State, to: State)
    ensures CanMove(from, to) <==>
            match to
            case Proposed => from == Draft
            case Validating => from == Proposed
            case Rejected => from == Validating
            case StepUpRequired => from == Validating
            case UserApproved => from == StepUpRequired
            case Reserved => from in {Validating, UserApproved}
            case Authorized => from == Reserved
            case Executing => from == Authorized
            case Success => from == Executing
            case Failure => from == Executing
            case Committed => from in {Executing, Success}
            case RolledBack => from in {Executing, Failure}
            case Completed => from in {Committed, RolledBack}
            case _ => false
  {
  }

  /** How far along a state is; every move goes further. */
  function Stage(s: State): nat {
    match s
    case Draft => 0
    case Proposed => 1
    case Validating => 2
    case StepUpRequired => 3
    case UserApproved => 4
    case Reserved => 5
    case Authorized => 6
    case Executing => 7
    case Success => 8
    case Failure => 8
    case Committed => 9
    case RolledBack => 9
    case Completed => 10
    case Receipt => 11
    case _ => 12
  }

  lemma MovesGoForward(from: State, to: State)
    requires CanMove(from, to)
    ensures Stage(from) < Stage(to)
  {
  }

  /** The table lets COMPLETED go on to RECEIPT, but COMPLETED counts as terminal: that edge is never taken. */
  lemma ReceiptIsNeverReached(from: State)
    ensures Receipt in Next(from) <==> from == Completed
    ensures !CanMove(from, Receipt)
    ensures forall to :: to in Next(from) && !CanMove(from, to) <==> from == Completed && to == Receipt
  {
  }
}
