/** The purchase-intent lifecycle (internal/domain/intent). */
module PurchaseStates {
  import opened Results
  import opened Paths

  /** The stored value is a plain string; `Unknown` stands for every string outside the table. */
  datatype State =
    | Draft
    | Discovering
    | Quoted
    | PolicyCheck
    | PolicyRejected
    | ApprovalRequired
    | Approved
    | ReapprovalRequired
    | Executing
    | AuthenticationRequired
    | Succeeded
    | Failed
    | Cancelled
    | Expired
    | PartiallyCompleted
    | MerchantInterventionRequired
    | UserInterventionRequired
    | Unknown(name: string)

  datatype TransitionError = UnknownSource | UnknownTarget | Illegal(from: State, to: State)

  predicate Valid(s: State) {
    !s.Unknown?
  }

  /** The allow-list. */
  function Successors(s: State): set<State> {
    match s
    case Draft => {Discovering, Cancelled, Expired}
    case Discovering => {Quoted, Failed, Cancelled, Expired}
    case Quoted => {PolicyCheck, Cancelled, Expired}
    case PolicyCheck => {PolicyRejected, ApprovalRequired, Approved, Cancelled}
    case ApprovalRequired => {Approved, Cancelled, Expired}
    case Approved => {Executing, ReapprovalRequired, Cancelled}
    case ReapprovalRequired => {Approved, Cancelled, Expired}
    case Executing =>
      {AuthenticationRequired, Succeeded, Failed, MerchantInterventionRequired,
       UserInterventionRequired, PartiallyCompleted}
    case AuthenticationRequired => {Succeeded, Failed, Expired}
    case MerchantInterventionRequired => {Executing, Failed, Cancelled}
    case UserInterventionRequired => {Executing, Failed, Cancelled}
    case PolicyRejected => {}
    case Succeeded => {}
    case Failed => {}
    case Cancelled => {}
    case Expired => {}
    case PartiallyCompleted => {}
    case Unknown(_) => {}
  }

  predicate CanTransition(from: State, to: State) {
    to in Successors(from)
  }

  function Transition(from: State, to: State): (r: Result<State, TransitionError>)
    ensures r.Ok? <==> CanTransition(from, to)
    ensures r.Ok? ==> r.value == to
  {
    if !Valid(from) then Err(UnknownSource)
    else if !Valid(to) then Err(UnknownTarget)
    else if !CanTransition(from, to) then Err(Illegal(from, to))
    else Ok(to)
  }

  /** The same table by its columns: where each state can be reached from. */
  function Predecessors(s: State): set<State> {
    match s
    case Draft => {}
    case Discovering => {Draft}
    case Quoted => {Discovering}
    case PolicyCheck => {Quoted}
    case PolicyRejected => {PolicyCheck}
    case ApprovalRequired => {PolicyCheck}
    case Approved => {PolicyCheck, ApprovalRequired, ReapprovalRequired}
    case ReapprovalRequired => {Approved}
    case Executing => {Approved, MerchantInterventionRequired, UserInterventionRequired}
    case AuthenticationRequired => {Executing}
    case Succeeded => {Executing, AuthenticationRequired}
    case Failed =>
      {Discovering, Executing, AuthenticationRequired, MerchantInterventionRequired, UserInterventionRequired}
    case Cancelled =>
      {Draft, Discovering, Quoted, PolicyCheck, ApprovalRequired, Approved, ReapprovalRequired,
       MerchantInterventionRequired, UserInterventionRequired}
    case Expired => {Draft, Discovering, Quoted, ApprovalRequired, ReapprovalRequired, AuthenticationRequired}
    case PartiallyCompleted => {Executing}
    case MerchantInterventionRequired => {Executing}
    case UserInterventionRequired => {Executing}
    case Unknown(_) => {}
  }

  /** Rows and columns of the table say the same. */
  lemma {:induction false} ReachedFrom(from: State, to: State)
    ensures CanTransition(from, to) <==> from in Predecessors(to)
  {
  }

  predicate Terminal(s: State) {
    s in {PolicyRejected, Succeeded, Failed, Cancelled, Expired, PartiallyCompleted}
  }

  /** Where a run can be once it has entered EXECUTING. */
  const AFTER_EXECUTING: set<State> :=
    {Executing, AuthenticationRequired, Succeeded, Failed, Cancelled, Expired, PartiallyCompleted,
     MerchantInterventionRequired, UserInterventionRequired}

  // Regions whose only entrance is the milestone they are named after.
  const PAST_DISCOVERING: set<State> :=
    PAST_QUOTED + {Discovering, Failed}
  const PAST_QUOTED: set<State> :=
    PAST_POLICY_CHECK + {Quoted}
  const PAST_POLICY_CHECK: set<State> :=
    PAST_APPROVED + {PolicyCheck, PolicyRejected, ApprovalRequired}
  const PAST_APPROVED: set<State> :=
    PAST_EXECUTING + {Approved, ReapprovalRequired}
  const PAST_EXECUTING: set<State> :=
    {Executing, AuthenticationRequired, Succeeded, PartiallyCompleted,
     MerchantInterventionRequired, UserInterventionRequired}

  ghost predicate IsRun(run: seq<State>) {
    IsPath(CanTransition, run)
  }

  /** Terminal names exactly the known states with no way out. */
  lemma TerminalIffStuck(s: State)
    requires Valid(s)
    ensures Terminal(s) <==> forall t :: !CanTransition(s, t)
  {
    if !Terminal(s) {
      var t :| t in Successors(s);
      assert CanTransition(s, t);
    }
  }

  /** No run returns to APPROVED after EXECUTING, so one claim is never followed by another. */
  lemma NeverApprovedAfterExecuting(run: seq<State>, i: nat, j: nat)
    requires IsRun(run) && i <= j < |run| && run[i] == Executing
    ensures run[j] != Approved
  {
    StaysTrapped(CanTransition, run, AFTER_EXECUTING, i, j);
  }

  /** Every run from DRAFT to SUCCEEDED passes the five milestones, in this order. */
  lemma Milestones(run: seq<State>) returns (d: nat, q: nat, p: nat, a: nat, e: nat)
    requires IsRun(run) && run[0] == Draft && run[|run| - 1] == Succeeded
    ensures 0 < d < q < p < a < e < |run| - 1
    ensures run[d] == Discovering && run[q] == Quoted && run[p] == PolicyCheck
    ensures run[a] == Approved && run[e] == Executing
  {
    d := FirstEntry(CanTransition, run, PAST_DISCOVERING, Discovering);
    q := FirstEntry(CanTransition, run, PAST_QUOTED, Quoted);
    p := FirstEntry(CanTransition, run, PAST_POLICY_CHECK, PolicyCheck);
    a := FirstEntry(CanTransition, run, PAST_APPROVED, Approved);
    e := FirstEntry(CanTransition, run, PAST_EXECUTING, Executing);
  }
}
