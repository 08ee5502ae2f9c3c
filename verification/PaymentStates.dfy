/** The agentic payment-intent lifecycle (internal/domain/paymentintent). */
module PaymentStates {
  import opened Results
  import opened Paths

  datatype State =
    | Draft
    | PolicyEvaluating
    | Denied
    | ApprovalRequired
    | Authorized
    | CredentialPreparing
    | ReadyToExecute
    | Processing
    | Succeeded
    | Failed
    | Expired
    | Revoked
    | Cancelled
    | AuthenticationRequired
    | MerchantActionRequired
    | ProviderUnavailable
    | Unknown(name: string)

  datatype TransitionError = UnknownSource | UnknownTarget | Illegal(from: State, to: State)

  predicate Valid(s: State) {
    !s.Unknown?
  }

  function Successors(s: State): set<State> {
    match s
    case Draft => {PolicyEvaluating, Cancelled, Expired}
    case PolicyEvaluating => {Denied, ApprovalRequired, Authorized, Cancelled}
    case ApprovalRequired => {Authorized, Cancelled, Expired, Revoked}
    case Authorized => {CredentialPreparing, Cancelled, Revoked}
    case CredentialPreparing => {ReadyToExecute, ProviderUnavailable, Failed}
    case ReadyToExecute => {Processing, Cancelled, Revoked}
    case Processing =>
      {Succeeded, Failed, AuthenticationRequired, MerchantActionRequired, ProviderUnavailable}
    case AuthenticationRequired => {Processing, Failed, Expired}
    case MerchantActionRequired => {Processing, Failed, Cancelled}
    case ProviderUnavailable => {Processing, Failed, Cancelled}
    case Denied => {}
    case Succeeded => {}
    case Failed => {}
    case Expired => {}
    case Revoked => {}
    case Cancelled => {}
    case Unknown(_) => {}
  }

  predicate CanTransition(from: State, to: State) {
    to in Successors(from)
  }

  function Transition(from: State, to: State): (r: Result<State, TransitionError>)
    ensures r.Ok? <==> CanTransition(from, to)
    ensures r.Ok? ==> r.value == to
  {
    if !Valid(from) then Err(UnknownSource)
    else if !Valid(to) then Err(UnknownTarget)
    else if !CanTransition(from, to) then Err(Illegal(from, to))
    else Ok(to)
  }

  /** The same table by its columns: where each state can be reached from. */
  function Predecessors(s: State): set<State> {
    match s
    case Draft => {}
    case PolicyEvaluating => {Draft}
    case Denied => {PolicyEvaluating}
    case ApprovalRequired => {PolicyEvaluating}
    case Authorized => {PolicyEvaluating, ApprovalRequired}
    case CredentialPreparing => {Authorized}
    case ReadyToExecute => {CredentialPreparing}
    case Processing => {ReadyToExecute, AuthenticationRequired, MerchantActionRequired, ProviderUnavailable}
    case Succeeded => {Processing}
    case Failed =>
      {CredentialPreparing, Processing, AuthenticationRequired, MerchantActionRequired, ProviderUnavailable}
    case Expired => {Draft, ApprovalRequired, AuthenticationRequired}
    case Revoked => {ApprovalRequired, Authorized, ReadyToExecute}
    case Cancelled =>
      {Draft, PolicyEvaluating, ApprovalRequired, Authorized, ReadyToExecute, MerchantActionRequired,
       ProviderUnavailable}
    case AuthenticationRequired => {Processing}
    case MerchantActionRequired => {Processing}
    case ProviderUnavailable => {CredentialPreparing, Processing}
    case Unknown(_) => {}
  }

  /** Rows and columns of the table say the same. */
  lemma {:induction false} ReachedFrom(from: State, to: State)
    ensures CanTransition(from, to) <==> from in Predecessors(to)
  {
  }

  predicate Terminal(s: State) {
    s in {Denied, Succeeded, Failed, Expired, Revoked, Cancelled}
  }

  const AFTER_PREPARING: set<State> :=
    {CredentialPreparing, ReadyToExecute, Processing, Succeeded, Failed, Expired, Revoked, Cancelled,
     AuthenticationRequired, MerchantActionRequired, ProviderUnavailable}

  // Regions whose only entrance is the milestone they are named after.
  const PAST_EVALUATING: set<State> :=
    PAST_AUTHORIZED + {PolicyEvaluating, Denied, ApprovalRequired}
  const PAST_AUTHORIZED: set<State> :=
    PAST_PREPARING + {Authorized}
  const PAST_PREPARING: set<State> :=
    {CredentialPreparing, ReadyToExecute, Processing, Succeeded, Failed,
     AuthenticationRequired, MerchantActionRequired, ProviderUnavailable}
  const PAST_PROCESSING: set<State> :=
    {Processing, Succeeded, AuthenticationRequired, MerchantActionRequired}

  ghost predicate IsRun(run: seq<State>) {
    IsPath(CanTransition, run)
  }

  lemma TerminalIffStuck(s: State)
    requires Valid(s)
    ensures Terminal(s) <==> forall t :: !CanTransition(s, t)
  {
    if !Terminal(s) {
      var t :| t in Successors(s);
      assert CanTransition(s, t);
    }
  }

  /** No run returns to AUTHORIZED once a credential has started to be prepared. */
  lemma NeverAuthorizedAfterPreparing(run: seq<State>, i: nat, j: nat)
    requires IsRun(run) && i <= j < |run| && run[i] == CredentialPreparing
    ensures run[j] != Authorized
  {
    StaysTrapped(CanTransition, run, AFTER_PREPARING, i, j);
  }

  /** Every run from DRAFT to SUCCEEDED passes the four milestones, in this order. */
  lemma Milestones(run: seq<State>) returns (v: nat, a: nat, c: nat, p: nat)
    requires IsRun(run) && run[0] == Draft && run[|run| - 1] == Succeeded
    ensures 0 < v < a < c < p < |run| - 1
    ensures run[v] == PolicyEvaluating && run[a] == Authorized
    ensures run[c] == CredentialPreparing && run[p] == Processing
  {
    v := FirstEntry(CanTransition, run, PAST_EVALUATING, PolicyEvaluating);
    a := FirstEntry(CanTransition, run, PAST_AUTHORIZED, Authorized);
    c := FirstEntry(CanTransition, run, PAST_PREPARING, CredentialPreparing);
    p := FirstEntry(CanTransition, run, PAST_PROCESSING, Processing);
  }
}
