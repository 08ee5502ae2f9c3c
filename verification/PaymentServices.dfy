/** PaymentIntentService and the payment half of ApprovalService over shared mutable stores and the demo
    provider: each method does, store write by store write, what PaymentFlow says happens to the world. */
module PaymentServices {
  import opened AuditTrails
  import opened Results
  import opened Money
  import opened Approvals
  import opened PaymentFlow
  import S = PaymentStates
  import P = Policy
  import D = PaymentDemo
  import V = PolicySets

  class Services {
    var approvalTTL: int
    const provider: D.Provider
    const policySets: V.PolicySetService

    var now: int
    var agents: map<string, Agent>
    var tenants: map<string, string>

    var intents: map<nat, Intent>
    var approvals: map<nat, Approval>
    var latest: map<nat, nat>
    var next: nat

    var audit: seq<Event<S.State>>
    var outcomes: map<(string, nat), Outcome>

    ghost function View(): World
      reads this, provider, policySets
    {
      World(Env(now, approvalTTL, agents, tenants, policySets.sets), provider.View(),
            Deals(intents, approvals, latest, next), Record(audit, outcomes))
    }

    constructor (approvalTTL: int, provider: D.Provider, policySets: V.PolicySetService, now: int)
      requires provider.View() == D.NEW
      ensures PaymentFlow.Fresh(View()) && this.provider == provider && this.policySets == policySets
    {
      this.approvalTTL, this.provider, this.policySets, this.now := approvalTTL, provider, policySets, now;
      agents, tenants := map[], map[];
      intents, approvals, latest, next := map[], map[], map[], 0;
      audit, outcomes := [], map[];
    }

    method RequirePermission(agent: string, p: Permission) returns (r: Result<string, Error>)
      ensures r == Permitted(View(), agent, p)
    {
      if agent !in agents {
        return Err(NotFound);
      }
      if agents[agent].revoked || p !in agents[agent].permissions {
        return Err(Unauthorized);
      }
      return Ok(agents[agent].user);
    }

    method RequireOwned(agent: string, n: nat, p: Permission) returns (r: Result<Intent, Error>)
      ensures r == Owned(View(), agent, n, p)
    {
      var user := RequirePermission(agent, p);
      if user.Err? {
        return Err(user.error);
      }
      if n !in intents || intents[n].user != user.value {
        return Err(NotFound);
      }
      return Ok(intents[n]);
    }

    method RecordAudit(n: nat, previous: Option<S.State>, to: Option<S.State>)
      modifies this`audit
      ensures View() == Log(old(View()), Event(n, previous, to))
    {
      audit := audit + [Event(n, previous, to)];
    }

    /** transitionPaymentIntent on the caller's copy of the row, which is stored whole. */
    method TransitionIntent(n: nat, pi: Intent, to: S.State) returns (ok: bool)
      modifies this`intents, this`audit
      ensures ok == S.CanTransition(pi.status, to)
      ensures View() == if ok then Stored(old(View()), n, pi, to) else old(View())
    {
      var moved := S.Transition(pi.status, to);
      if moved.Err? {
        return false;
      }
      intents := intents[n := pi.(status := moved.value)];
      RecordAudit(n, Some(pi.status), Some(moved.value));
      return true;
    }

    method CreateApproval(n: nat, pi: Intent, status: Status)
      modifies this`approvals, this`latest, this`next
      ensures View() == NewApproval(old(View()), n, pi, status)
    {
      var q := pi.request;
      var hash := CanonicalHash(q.merchant, [], q.currency, q.alias);
      var a := next;
      next := next + 1;
      approvals := approvals[a := Approval(n, 0, pi.user, q.merchant, Amount(q.amount, q.currency), q.alias, hash,
                                           status,
                                           now + approvalTTL)];
      latest := latest[n := a];
    }

    method Conclude(n: nat, pi: Intent, d: P.Decision)
      requires pi.status == S.PolicyEvaluating
      modifies this
      ensures View() == Decided(old(View()), n, pi, d)
    {
      match d
      case Deny =>
        var _ := TransitionIntent(n, pi, S.Denied);
      case RequireApproval =>
        CreateApproval(n, pi, Pending);
        var _ := TransitionIntent(n, pi, S.ApprovalRequired);
      case Allow =>
        CreateApproval(n, pi, Approved);
        var _ := TransitionIntent(n, pi, S.Authorized);
    }

    method Place(pi: Intent) returns (n: nat)
      modifies this`intents, this`audit, this`next
      ensures n == old(next) && View() == Placed(old(View()), pi)
    {
      n := next;
      next := next + 1;
      intents := intents[n := pi];
      RecordAudit(n, None, Some(S.Draft));
    }

    method Evaluate(n: nat) returns (d: Result<P.PolicyDecision, Error>)
      requires n in intents && intents[n].status == S.PolicyEvaluating
      modifies this
      ensures d == Judge(old(View()), old(intents[n])) && View() == Concluded(old(View()), n, d)
    {
      var pi := intents[n];
      var rules := policySets.GetActive(V.Owner(pi.tenant, Some(pi.user)));
      if rules.Err? {
        return Err(Conflict);
      }
      d := P.EvaluatePurchaseIntent(rules.value.rules, PolicyInput(pi));
      if d.Err? {
        return;
      }
      pi := pi.(policyVersion := d.value.version);
      RecordAudit(n, None, None);
      Conclude(n, pi, d.value.decision);
    }

    method CreateFor(agent: string, q: Request) returns (r: Result<nat, Error>)
      modifies this
      ensures (View(), r) == Create(old(View()), agent, q)
    {
      var user := RequirePermission(agent, PaymentsCreate);
      if user.Err? {
        return Err(user.error);
      }
      if user.value !in tenants {
        return Err(NotFound);
      }
      if tenants[user.value] == "" {
        return Err(Unauthorized);
      }
      if q.merchant == "" || q.amount <= 0 || q.currency == "" || q.alias == "" {
        return Err(Invalid);
      }
      var pi := Intent(tenants[user.value], user.value, q, S.Draft, "", None);
      var n := Place(pi);
      var _ := TransitionIntent(n, pi, S.PolicyEvaluating);
      var d := Evaluate(n);
      return if d.Err? then Err(d.error) else Ok(n);
    }

    method GetOwned(user: string, a: nat) returns (r: Result<Approval, Error>)
      ensures r == OwnApproval(View(), user, a)
    {
      if a !in approvals {
        return Err(NotFound);
      }
      if approvals[a].user != user {
        return Err(Unauthorized);
      }
      return Ok(approvals[a]);
    }

    method MoveIntentOf(n: nat, to: S.State) returns (e: Option<Error>)
      modifies this`intents, this`audit
      ensures (View(), e) == MoveParent(old(View()), n, to)
    {
      if n !in intents {
        return Some(NotFound);
      }
      var ok := TransitionIntent(n, intents[n], to);
      return if ok then None else Some(Conflict);
    }

    method ApproveBy(user: string, a: nat) returns (e: Option<Error>)
      modifies this
      ensures (View(), e) == Approve(old(View()), user, a)
    {
      var row := GetOwned(user, a);
      if row.Err? {
        return Some(row.error);
      }
      if row.value.status == Expired || (row.value.status == Pending && IsExpired(row.value, now)) {
        return Some(Conflict);
      }
      if row.value.status != Pending {
        return Some(Conflict);
      }
      approvals := approvals[a := row.value.(status := Approved)];
      e := MoveIntentOf(row.value.parent, S.Authorized);
    }

    method RejectBy(user: string, a: nat) returns (e: Option<Error>)
      modifies this
      ensures (View(), e) == Reject(old(View()), user, a)
    {
      var row := GetOwned(user, a);
      if row.Err? {
        return Some(row.error);
      }
      if row.value.status != Pending && row.value.status != ReapprovalRequired {
        return Some(Conflict);
      }
      approvals := approvals[a := row.value.(status := Rejected)];
      e := MoveIntentOf(row.value.parent, S.Cancelled);
    }

    method RevokeBy(agent: string, n: nat) returns (e: Option<Error>)
      modifies this
      ensures (View(), e) == Revoke(old(View()), agent, n)
    {
      var pi := RequireOwned(agent, n, PaymentsExecute);
      if pi.Err? {
        return Some(pi.error);
      }
      var target := S.Cancelled;
      match pi.value.status {
        case ApprovalRequired => target := S.Revoked;
        case Authorized => target := S.Revoked;
        case ReadyToExecute => target := S.Revoked;
        case _ =>
      }
      e := MoveIntentOf(n, target);
    }

    /** prepareCredential. */
    method PrepareCredential(pi: Intent, expiresAt: int) returns (r: Result<nat, Error>)
      modifies provider
      ensures (provider.View(), r) == Prepare(old(provider.View()), pi.user, pi.request, expiresAt, now)
    {
      var q := pi.request;
      var source := provider.RegisterPaymentSource(pi.user, q.alias);
      var auth := provider.CreateDelegatedAuthorization(source, q.amount + q.tolerance, q.currency, expiresAt);
      if auth.Err? {
        return Err(auth.error);
      }
      r := provider.CreateScopedCredential(auth.value, q.amount, q.currency, now);
    }

    method MarkConsumed(a: nat) returns (claimed: bool)
      modifies this`approvals
      ensures claimed == (a in old(approvals) && old(approvals)[a].status == Approved)
      ensures View() == if claimed then WithStatus(old(View()), a, Consumed) else old(View())
    {
      if a !in approvals || approvals[a].status != Approved {
        return false;
      }
      approvals := approvals[a := approvals[a].(status := Consumed)];
      return true;
    }

    method HandleExecutionResult(n: nat, r: Result<D.PaymentResult, Error>) returns (o: Outcome)
      requires n in intents && intents[n].status == S.Processing
      modifies this`intents, this`audit
      ensures (View(), o) == Settle(old(View()), n, r)
    {
      if r.Err? {
        var _ := TransitionIntent(n, intents[n], S.Failed);
        return Outcome(S.Failed, None);
      }
      var pi, to := intents[n], S.Failed;
      match r.value.status {
        case Succeeded =>
          if r.value.transaction.Some? {
            pi := pi.(receipt := Some(Receipt(r.value.transaction.value, r.value.amount, r.value.currency)));
          }
          to := S.Succeeded;
        case AuthenticationRequired => to := S.AuthenticationRequired;
        case ProviderUnavailable => to := S.ProviderUnavailable;
        case Declined =>
        case Failed =>
      }
      var _ := TransitionIntent(n, pi, to);
      return Outcome(to, Some(r.value));
    }

    method PayWith(key: string, n: nat, a: nat, credential: nat, scenario: D.Scenario)
      returns (r: Result<Outcome, Error>)
      requires n in intents && intents[n].status == S.CredentialPreparing && a in approvals
               && approvals[a].status == Approved
      modifies this, provider
      ensures var (t, o) := Pay(old(View()), key, n, a, credential, scenario);
              View() == t && r == Ok(o)
    {
      var _ := TransitionIntent(n, intents[n], S.ReadyToExecute);
      var claimed := MarkConsumed(a);
      if !claimed {
        return Err(Conflict);
      }
      var _ := TransitionIntent(n, intents[n], S.Processing);
      var q := intents[n].request;
      var paid := provider.ExecutePayment(key, credential, q.amount, q.currency, scenario, now);
      var o := HandleExecutionResult(n, paid);
      return Ok(o);
    }

    /** Ownership, status, and an approval that may be executed. */
    method FindApproval(agent: string, n: nat) returns (r: Result<nat, Error>)
      ensures r == Ready(View(), agent, n)
    {
      var pi := RequireOwned(agent, n, PaymentsExecute);
      if pi.Err? {
        return Err(pi.error);
      }
      if pi.value.status != S.Authorized {
        return Err(Conflict);
      }
      if n !in latest || latest[n] !in approvals {
        return Err(NotFound);
      }
      if !Executable(approvals[latest[n]], now) {
        return Err(Conflict);
      }
      return Ok(latest[n]);
    }

    method ExecuteFresh(key: string, agent: string, n: nat, scenario: D.Scenario) returns (r: Result<Outcome, Error>)
      modifies this, provider
      ensures (View(), r) == ExecuteOnce(old(View()), key, agent, n, scenario)
    {
      var a := FindApproval(agent, n);
      if a.Err? {
        return Err(a.error);
      }
      var pi := intents[n];
      var _ := TransitionIntent(n, pi, S.CredentialPreparing);
      var credential := PrepareCredential(pi, approvals[a.value].expiresAt);
      if credential.Err? {
        var _ := TransitionIntent(n, intents[n], S.ProviderUnavailable);
        return Ok(Outcome(S.ProviderUnavailable, None));
      }
      r := PayWith(key, n, a.value, credential.value, scenario);
    }

    /** RunIdempotent around an execution. */
    method ExecuteFor(key: string, agent: string, n: nat, scenario: D.Scenario) returns (r: Result<Outcome, Error>)
      modifies this, provider
      ensures (View(), r) == Execute(old(View()), key, agent, n, scenario)
    {
      if key == "" {
        r := ExecuteFresh(key, agent, n, scenario);
        return;
      }
      if (key, n) in outcomes {
        return Ok(outcomes[(key, n)]);
      }
      r := ExecuteFresh(key, agent, n, scenario);
      if r.Ok? {
        outcomes := outcomes[(key, n) := r.value];
      }
    }

    // ----- whole runs

    method ServeAsk(agent: string, ask: Ask)
      modifies this, provider
      ensures View() == Asked(old(View()), agent, ask)
    {
      match ask
      case Creating(q) => var _ := CreateFor(agent, q);
      case Executing(key, n, scenario) => var _ := ExecuteFor(key, agent, n, scenario);
      case Revoking(n) => var _ := RevokeBy(agent, n);
    }

    /** A call to the provider from elsewhere. */
    method CallProvider(op: Op)
      requires IsProviders(op)
      modifies provider
      ensures provider.View() == Called(old(provider.View()), op, now)
    {
      match op
      case ProviderRegisters(user, alias) => var _ := provider.RegisterPaymentSource(user, alias);
      case ProviderDelegates(source, amount, currency, expiresAt) =>
        var _ := provider.CreateDelegatedAuthorization(source, amount, currency, expiresAt);
      case ProviderMints(a, amount, currency) => var _ := provider.CreateScopedCredential(a, amount, currency, now);
      case ProviderPays(key, c, amount, currency, scenario) =>
        var _ := provider.ExecutePayment(key, c, amount, currency, scenario, now);
      case ProviderRevokes(a) => var _ := provider.RevokeAuthorization(a);
      case ProviderRefunds(t, amount, currency) => var _ := provider.Refund(t, amount, currency);
    }

    method Undergo(env: Env)
      modifies this, policySets
      ensures View() == Step(old(View()), EnvChanges(env))
    {
      if now <= env.now {
        now, approvalTTL, agents, tenants := env.now, env.approvalTTL, env.agents, env.tenants;
        policySets.sets := env.policies;
      }
    }

    method Serve(op: Op)
      modifies this, provider, policySets
      ensures View() == Step(old(View()), op)
    {
      match op
      case Asks(agent, ask) => ServeAsk(agent, ask);
      case Approves(user, a) => var _ := ApproveBy(user, a);
      case Rejects(user, a) => var _ := RejectBy(user, a);
      case EnvChanges(env) => Undergo(env);
      case _ => CallProvider(op);
    }

    /** Serving operations one after the other is a run. */
    method ServeAll(ops: seq<Op>)
      modifies this, provider, policySets
      ensures View() == Run(old(View()), ops)
    {
      for k := 0 to |ops|
        invariant View() == Run(old(View()), ops[..k])
      {
        assert ops[..k + 1][..k] == ops[..k];
        Serve(ops[k]);
      }
      assert ops[..|ops|] == ops;
    }
  }
}
