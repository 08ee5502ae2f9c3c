/** Agentic payments over their stores and the demo provider, one operation at a time
    (internal/app: payment_intent_service.go, payment_intent_transition.go, approval_service.go). */
module PaymentFlow {
  import opened AuditTrails
  import opened Results
  import opened Money
  import opened Approvals
  import S = PaymentStates
  import P = Policy
  import D = PaymentDemo
  import V = PolicySets

  datatype Permission = PaymentsCreate | PaymentsExecute

  datatype Agent = Agent(user: string, permissions: set<Permission>, revoked: bool)

  datatype Request = Request(
    merchant: string,
    category: string,
    international: bool,
    amount: int,
    currency: string,
    tolerance: int,
    alias: string)

  /** What the provider confirmed. */
  datatype Receipt = Receipt(transaction: nat, amount: int, currency: string)

  datatype Intent = Intent(
    tenant: string,
    user: string,
    request: Request,
    status: S.State,
    policyVersion: string,
    receipt: Option<Receipt>)

  datatype Outcome = Outcome(status: S.State, result: Option<D.PaymentResult>)

  /** What the services read and never write; `tenants` is each known user's tenant, "" for none. */
  datatype Env = Env(
    now: int,
    approvalTTL: int,
    agents: map<string, Agent>,
    tenants: map<string, string>,
    policies: seq<V.PolicySet>)

  /** Payment intents and approvals, each intent's newest approval, and the next unused id. */
  datatype Deals = Deals(
    intents: map<nat, Intent>,
    approvals: map<nat, Approval>,
    latest: map<nat, nat>,
    next: nat)

  datatype Record = Record(audit: seq<Event<S.State>>, outcomes: map<(string, nat), Outcome>)

  datatype World = World(env: Env, demo: D.Demo, deals: Deals, record: Record)

  // ----- reading and writing

  function Permitted(w: World, agent: string, p: Permission): Result<string, Error> {
    if agent !in w.env.agents then Err(NotFound)
    else if w.env.agents[agent].revoked || p !in w.env.agents[agent].permissions then Err(Unauthorized)
    else Ok(w.env.agents[agent].user)
  }

  function Owned(w: World, agent: string, n: nat, p: Permission): (r: Result<Intent, Error>)
    ensures r.Ok? ==> n in w.deals.intents && r.value == w.deals.intents[n]
  {
    var user := Permitted(w, agent, p);
    if user.Err? then Err(user.error)
    else if n !in w.deals.intents || w.deals.intents[n].user != user.value then Err(NotFound)
    else Ok(w.deals.intents[n])
  }

  function PutIntent(w: World, n: nat, pi: Intent): World {
    w.(deals := w.deals.(intents := w.deals.intents[n := pi]))
  }

  function PutApproval(w: World, a: nat, row: Approval): World {
    w.(deals := w.deals.(approvals := w.deals.approvals[a := row]))
  }

  function Log(w: World, e: Event<S.State>): World {
    w.(record := w.record.(audit := w.record.audit + [e]))
  }

  function WithDemo(w: World, d: D.Demo): World {
    w.(demo := d)
  }

  /** transitionPaymentIntent, when the move is legal: the whole row is stored, then the audit event. */
  function Stored(w: World, n: nat, pi: Intent, to: S.State): World {
    Log(PutIntent(w, n, pi.(status := to)), Event(n, Some(pi.status), Some(to)))
  }

  function Moved(w: World, n: nat, to: S.State): World
    requires n in w.deals.intents
  {
    Stored(w, n, w.deals.intents[n], to)
  }

  function WithStatus(w: World, a: nat, status: Status): World
    requires a in w.deals.approvals
  {
    PutApproval(w, a, w.deals.approvals[a].(status := status))
  }

  // ----- Create: the intent and its evaluation in one call

  function NewRow(w: World, n: nat, pi: Intent, status: Status): Approval {
    var q := pi.request;
    Approval(n, 0, pi.user, q.merchant, Amount(q.amount, q.currency), q.alias,
             CanonicalDigest(q.merchant, [], q.currency, q.alias), status, w.env.now + w.env.approvalTTL)
  }

  function NewApproval(w: World, n: nat, pi: Intent, status: Status): World {
    var a := w.deals.next;
    var t := PutApproval(w, a, NewRow(w, n, pi, status));
    t.(deals := t.deals.(latest := t.deals.latest[n := a], next := a + 1))
  }

  /** What each decision leads to; the row stored with it carries the policy version. */
  function Decided(w: World, n: nat, pi: Intent, d: P.Decision): World {
    match d
    case Deny => Stored(w, n, pi, S.Denied)
    case RequireApproval => Stored(NewApproval(w, n, pi, Pending), n, pi, S.ApprovalRequired)
    case Allow => Stored(NewApproval(w, n, pi, Approved), n, pi, S.Authorized)
  }

  function PolicyInput(pi: Intent): P.Input {
    var q := pi.request;
    P.Input(q.merchant, q.category, q.amount, q.currency, q.alias, "", q.international, 0, "", "")
  }

  /** The tenant's rules for the user; a tenant without any is an error, and leaves the intent where it is. */
  function Judge(w: World, pi: Intent): Result<P.PolicyDecision, Error> {
    var rules := V.Effective(w.env.policies, V.Owner(pi.tenant, Some(pi.user)));
    if rules.Err? then Err(Conflict) else P.EvaluatePurchaseIntent(rules.value.rules, PolicyInput(pi))
  }

  function Concluded(w: World, n: nat, d: Result<P.PolicyDecision, Error>): World
    requires n in w.deals.intents
  {
    if d.Err? then w
    else
      var pi := w.deals.intents[n].(policyVersion := d.value.version);
      Decided(Log(w, Event(n, None, None)), n, pi, d.value.decision)
  }

  /** The stored DRAFT row under the next id, and its audit event. */
  function Placed(w: World, pi: Intent): World {
    var n := w.deals.next;
    var t := Log(PutIntent(w, n, pi), Event(n, None, Some(S.Draft)));
    t.(deals := t.deals.(next := n + 1))
  }

  /** A new intent goes to POLICY_EVALUATING and on to what its evaluation decides. */
  function Evaluated(w: World, pi: Intent, d: Result<P.PolicyDecision, Error>): World {
    var n := w.deals.next;
    Concluded(Stored(Placed(w, pi), n, pi, S.PolicyEvaluating), n, d)
  }

  function Create(w: World, agent: string, q: Request): (World, Result<nat, Error>) {
    var user := Permitted(w, agent, PaymentsCreate);
    if user.Err? then (w, Err(user.error))
    else if user.value !in w.env.tenants then (w, Err(NotFound))
    else if w.env.tenants[user.value] == "" then (w, Err(Unauthorized))
    else if q.merchant == "" || q.amount <= 0 || q.currency == "" || q.alias == "" then (w, Err(Invalid))
    else
      var n := w.deals.next;
      var pi := Intent(w.env.tenants[user.value], user.value, q, S.Draft, "", None);
      var d := Judge(w, pi);
      (Evaluated(w, pi, d), if d.Err? then Err(d.error) else Ok(n))
  }

  // ----- ApprovalService, for payments

  function OwnApproval(w: World, user: string, a: nat): (r: Result<Approval, Error>)
    ensures r.Ok? ==> a in w.deals.approvals && r.value == w.deals.approvals[a]
  {
    if a !in w.deals.approvals then Err(NotFound)
    else if w.deals.approvals[a].user != user then Err(Unauthorized)
    else Ok(w.deals.approvals[a])
  }

  function MoveParent(w: World, n: nat, to: S.State): (World, Option<Error>) {
    if n !in w.deals.intents then (w, Some(NotFound))
    else if !S.CanTransition(w.deals.intents[n].status, to) then (w, Some(Conflict))
    else (Moved(w, n, to), None)
  }

  function Approve(w: World, user: string, a: nat): (World, Option<Error>) {
    var row := OwnApproval(w, user, a);
    if row.Err? then (w, Some(row.error))
    else if row.value.status != Pending || IsExpired(row.value, w.env.now) then (w, Some(Conflict))
    else MoveParent(WithStatus(w, a, Approved), row.value.parent, S.Authorized)
  }

  function Reject(w: World, user: string, a: nat): (World, Option<Error>) {
    var row := OwnApproval(w, user, a);
    if row.Err? then (w, Some(row.error))
    else if row.value.status != Pending && row.value.status != ReapprovalRequired then (w, Some(Conflict))
    else MoveParent(WithStatus(w, a, Rejected), row.value.parent, S.Cancelled)
  }

  function Revoke(w: World, agent: string, n: nat): (World, Option<Error>) {
    var pi := Owned(w, agent, n, PaymentsExecute);
    if pi.Err? then (w, Some(pi.error))
    else
      var s := pi.value.status;
      var target := if s == S.ApprovalRequired || s == S.Authorized || s == S.ReadyToExecute then S.Revoked
                    else S.Cancelled;
      MoveParent(w, n, target)
  }

  // ----- Execute

  function Ready(w: World, agent: string, n: nat): (r: Result<nat, Error>)
    ensures r.Ok? ==> n in w.deals.intents && w.deals.intents[n].status == S.Authorized
    ensures r.Ok? ==> n in w.deals.latest && r.value == w.deals.latest[n] && r.value in w.deals.approvals
                      && w.deals.approvals[r.value].status == Approved
  {
    var pi := Owned(w, agent, n, PaymentsExecute);
    if pi.Err? then Err(pi.error)
    else if pi.value.status != S.Authorized then Err(Conflict)
    else if n !in w.deals.latest || w.deals.latest[n] !in w.deals.approvals then Err(NotFound)
    else if !Executable(w.deals.approvals[w.deals.latest[n]], w.env.now) then Err(Conflict)
    else Ok(w.deals.latest[n])
  }

  /** prepareCredential: register the source, delegate amount plus tolerance until the approval expires, and
      mint a credential for the amount. */
  function Prepare(d: D.Demo, user: string, q: Request, expiresAt: int, now: int): (D.Demo, Result<nat, Error>) {
    var source := D.Registered(d, user, q.alias);
    DelegateAndMint(source.0, source.1, q, expiresAt, now)
  }

  function DelegateAndMint(d: D.Demo, source: nat, q: Request, expiresAt: int, now: int): (D.Demo, Result<nat, Error>) {
    var auth := D.Delegated(d, source, q.amount + q.tolerance, q.currency, expiresAt);
    if auth.1.Err? then (auth.0, Err(auth.1.error))
    else D.Minted(auth.0, auth.1.value, q.amount, q.currency, now)
  }

  /** A success is copied onto the intent. */
  function Received(pi: Intent, r: D.PaymentResult): Intent {
    if r.status == D.Succeeded && r.transaction.Some?
    then pi.(receipt := Some(Receipt(r.transaction.value, r.amount, r.currency))) else pi
  }

  /** The state a provider result leads to. */
  function Landing(status: D.PayStatus): S.State {
    match status
    case Succeeded => S.Succeeded
    case AuthenticationRequired => S.AuthenticationRequired
    case ProviderUnavailable => S.ProviderUnavailable
    case Declined => S.Failed
    case Failed => S.Failed
  }

  /** handleExecutionResult, or the failure of the call itself. */
  function Settle(w: World, n: nat, r: Result<D.PaymentResult, Error>): (World, Outcome)
    requires n in w.deals.intents
  {
    if r.Err? then (Moved(w, n, S.Failed), Outcome(S.Failed, None))
    else
      var to := Landing(r.value.status);
      (Stored(w, n, Received(w.deals.intents[n], r.value), to), Outcome(to, Some(r.value)))
  }

  /** The world in which the provider is called: READY_TO_EXECUTE, the claim, PROCESSING. */
  function Claimed(w: World, n: nat, a: nat): World
    requires n in w.deals.intents && a in w.deals.approvals
  {
    Moved(WithStatus(Moved(w, n, S.ReadyToExecute), a, Consumed), n, S.Processing)
  }

  /** The claim, and the provider's call under the caller's own idempotency key. */
  function Pay(w: World, key: string, n: nat, a: nat, credential: nat, scenario: D.Scenario): (World, Outcome)
    requires n in w.deals.intents && a in w.deals.approvals
  {
    var q := w.deals.intents[n].request;
    var t := Claimed(w, n, a);
    var paid := D.Paid(t.demo, key, credential, q.amount, q.currency, scenario, t.env.now);
    Settle(WithDemo(t, paid.0), n, paid.1)
  }

  /** CREDENTIAL_PREPARING, and what the provider's preparation came to. */
  function Preparing(w: World, n: nat, a: nat): (World, Result<nat, Error>)
    requires n in w.deals.intents && a in w.deals.approvals
  {
    var pi := w.deals.intents[n];
    var t := Moved(w, n, S.CredentialPreparing);
    var p := Prepare(t.demo, pi.user, pi.request, t.deals.approvals[a].expiresAt, t.env.now);
    (WithDemo(t, p.0), p.1)
  }

  function Proceed(w: World, key: string, n: nat, a: nat, credential: Result<nat, Error>, scenario: D.Scenario)
    : (World, Outcome)
    requires n in w.deals.intents && a in w.deals.approvals
  {
    if credential.Err? then (Moved(w, n, S.ProviderUnavailable), Outcome(S.ProviderUnavailable, None))
    else Pay(w, key, n, a, credential.value, scenario)
  }

  /** Credential preparation comes before the claim, so its failure leaves the approval as it was. */
  function ExecuteOnce(w: World, key: string, agent: string, n: nat, scenario: D.Scenario)
    : (World, Result<Outcome, Error>)
  {
    var a := Ready(w, agent, n);
    if a.Err? then (w, Err(a.error))
    else
      var (t, credential) := Preparing(w, n, a.value);
      var (u, outcome) := Proceed(t, key, n, a.value, credential, scenario);
      (u, Ok(outcome))
  }

  /** Only an answer without an error is remembered. */
  function Remembered(w: World, key: string, n: nat, r: Result<Outcome, Error>): World {
    if r.Err? then w else w.(record := w.record.(outcomes := w.record.outcomes[(key, n) := r.value]))
  }

  /** Execute, answered once per key for an intent. `scenario` is the demo metadata the provider would read;
      the service itself sends none. */
  function Execute(w: World, key: string, agent: string, n: nat, scenario: D.Scenario)
    : (World, Result<Outcome, Error>)
  {
    if key == "" then ExecuteOnce(w, key, agent, n, scenario)
    else if (key, n) in w.record.outcomes then (w, Ok(w.record.outcomes[(key, n)]))
    else
      var (t, r) := ExecuteOnce(w, key, agent, n, scenario);
      (Remembered(t, key, n, r), r)
  }

  // ----- runs

  datatype Ask =
    | Creating(request: Request)
    | Executing(key: string, intent: nat, scenario: D.Scenario)
    | Revoking(intent: nat)

  datatype Op =
    | Asks(asker: string, ask: Ask)
    | Approves(owner: string, approval: nat)
    | Rejects(rejecter: string, approval: nat)
    // calls to the provider that do not come from these services
    | ProviderRegisters(user: string, alias: string)
    | ProviderDelegates(source: nat, maxAmount: int, limitCurrency: string, expiresAt: int)
    | ProviderMints(authorization: nat, mintAmount: int, mintCurrency: string)
    | ProviderPays(key: string, credential: nat, payAmount: int, payCurrency: string, scenario: D.Scenario)
    | ProviderRevokes(revoked: nat)
    | ProviderRefunds(transaction: nat, amount: int, currency: string)
    // what happens around the services
    | EnvChanges(env: Env)

  function Asked(w: World, agent: string, ask: Ask): World {
    match ask
    case Creating(q) => Create(w, agent, q).0
    case Executing(key, n, scenario) => Execute(w, key, agent, n, scenario).0
    case Revoking(n) => Revoke(w, agent, n).0
  }

  predicate IsProviders(op: Op) {
    || op.ProviderRegisters? || op.ProviderDelegates? || op.ProviderMints? || op.ProviderPays? || op.ProviderRevokes?
    || op.ProviderRefunds?
  }

  /** A call to the provider by somebody else. */
  function Called(d: D.Demo, op: Op, now: int): D.Demo
    requires IsProviders(op)
  {
    match op
    case ProviderRegisters(user, alias) => D.Registered(d, user, alias).0
    case ProviderDelegates(source, amount, currency, expiresAt) => D.Delegated(d, source, amount, currency, expiresAt).0
    case ProviderMints(a, amount, currency) => D.Minted(d, a, amount, currency, now).0
    case ProviderPays(key, c, amount, currency, scenario) => D.Paid(d, key, c, amount, currency, scenario, now).0
    case ProviderRevokes(a) => D.Revoked(d, a).0
    case ProviderRefunds(t, amount, currency) => D.Refunded(d, t, amount, currency).0
  }

  function Step(w: World, op: Op): World {
    match op
    case Asks(agent, ask) => Asked(w, agent, ask)
    case Approves(user, a) => Approve(w, user, a).0
    case Rejects(user, a) => Reject(w, user, a).0
    case EnvChanges(env) => if w.env.now <= env.now then w.(env := env) else w
    case _ => WithDemo(w, Called(w.demo, op, w.env.now))
  }

  function Run(w: World, ops: seq<Op>): World {
    if ops == [] then w else Step(Run(w, ops[..|ops| - 1]), ops[|ops| - 1])
  }

  predicate Fresh(w: World) {
    w.demo == D.NEW && w.deals.intents == map[] && w.deals.approvals == map[] && w.deals.latest == map[]
    && w.record == Record([], map[])
  }
}
