/** What each payment operation does, in terms of the stored rows: exactly when it goes ahead, and every row and event
    it leaves behind. */
module PaymentEffects {
  import opened AuditTrails
  import opened Results
  import opened Money
  import opened Approvals
  import opened PaymentFlow
  import E = PaymentExecution
  import S = PaymentStates
  import P = Policy
  import D = PaymentDemo
  import V = PolicySets

  // ----- who may act

  predicate MayAct(w: World, agent: string, p: Permission, n: nat) {
    && agent in w.env.agents && !w.env.agents[agent].revoked && p in w.env.agents[agent].permissions
    && n in w.deals.intents && w.deals.intents[n].user == w.env.agents[agent].user
  }

  lemma {:induction false} OwnedExactly(w: World, agent: string, p: Permission, n: nat)
    ensures var r := Owned(w, agent, n, p);
            && (r.Ok? <==> MayAct(w, agent, p, n))
            && (r.Err? ==>
                  r.error == if agent in w.env.agents
                                && (w.env.agents[agent].revoked || p !in w.env.agents[agent].permissions)
                             then Unauthorized else NotFound)
  {
  }

  // ----- creating

  /** An agent that may create payments, for a user with a tenant, and a request with everything it needs. */
  predicate MayCreate(w: World, agent: string, q: Request) {
    && agent in w.env.agents && !w.env.agents[agent].revoked && PaymentsCreate in w.env.agents[agent].permissions
    && w.env.agents[agent].user in w.env.tenants && w.env.tenants[w.env.agents[agent].user] != ""
    && q.merchant != "" && q.amount > 0 && q.currency != "" && q.alias != ""
  }

  /** The rules of the user, or else of the tenant. */
  function ActiveRules(w: World, tenant: string, user: string): Option<V.PolicySet> {
    var own := V.ActiveOf(w.env.policies, V.Owner(tenant, Some(user)));
    if own.Some? then own else V.ActiveOf(w.env.policies, V.Owner(tenant, None))
  }

  /** What the active rules say of a request; nothing has been spent as far as a payment is concerned. */
  function VerdictOn(r: P.Rules, q: Request): S.State {
    if P.Forbids(r, q.merchant, q.category, q.amount, q.currency, q.alias, "", 0) then S.Denied
    else if P.AsksUser(r, q.amount, q.international) then S.ApprovalRequired
    else S.Authorized
  }

  /** The approval of a request: bound to its merchant, amount, currency and alias and no items, for the configured
      time. */
  function ApprovalOf(w: World, n: nat, user: string, q: Request, status: Status): Approval {
    Approval(n, 0, user, q.merchant, Amount(q.amount, q.currency), q.alias,
             CanonicalDigest(q.merchant, [], q.currency, q.alias), status, w.env.now + w.env.approvalTTL)
  }

  /** The row of an intent that is being evaluated, once it has been placed. */
  predicate EvaluatedOnly(w: World, t: World, pi: Intent) {
    var n := w.deals.next;
    && t.deals.intents == w.deals.intents[n := pi.(status := S.PolicyEvaluating)]
    && t.record.audit == w.record.audit + [Event(n, None, Some(S.Draft)),
                                           Event(n, Some(S.Draft), Some(S.PolicyEvaluating))]
    && t.deals.approvals == w.deals.approvals && t.deals.latest == w.deals.latest && t.deals.next == n + 1
    && t.demo == w.demo && t.env == w.env && t.record.outcomes == w.record.outcomes
  }

  lemma {:induction false} PlacedExactly(w: World, pi: Intent)
    requires pi.status == S.Draft
    ensures EvaluatedOnly(w, Stored(Placed(w, pi), w.deals.next, pi, S.PolicyEvaluating), pi)
  {
    var n := w.deals.next;
    assert w.deals.intents[n := pi][n := pi.(status := S.PolicyEvaluating)]
           == w.deals.intents[n := pi.(status := S.PolicyEvaluating)];
  }

  /** A decision on an evaluated intent: its row in the state decided and, unless it is denied, an approval of the
      request as its latest. */
  lemma {:induction false} DecidedExactly(w: World, n: nat, pi: Intent, d: P.Decision)
    requires n in w.deals.intents && pi == w.deals.intents[n].(policyVersion := pi.policyVersion)
    ensures var t := Decided(w, n, pi, d);
            var a := w.deals.next;
            var to := match d
                      case Deny => S.Denied
                      case RequireApproval => S.ApprovalRequired
                      case Allow => S.Authorized;
            && t.deals.intents == w.deals.intents[n := pi.(status := to)]
            && t.record.audit == w.record.audit + [Event(n, Some(pi.status), Some(to))]
            && t.demo == w.demo && t.env == w.env && t.record.outcomes == w.record.outcomes
            && (if d == P.Deny then
                  t.deals.approvals == w.deals.approvals && t.deals.latest == w.deals.latest && t.deals.next == a
                else
                  && t.deals.approvals == w.deals.approvals[a := ApprovalOf(w, n, pi.user, pi.request,
                                                                            if d == P.Allow then Approved else Pending)]
                  && t.deals.latest == w.deals.latest[n := a] && t.deals.next == a + 1)
  {
  }

  lemma {:induction false} JudgeExactly(w: World, pi: Intent)
    ensures var active := ActiveRules(w, pi.tenant, pi.user);
            var d := Judge(w, pi);
            && (d.Ok? <==> active.Some?) && (d.Err? ==> d.error == Conflict)
            && (active.Some? ==>
                  d.value.decision == match VerdictOn(active.value.rules, pi.request)
                                      case Denied => P.Deny
                                      case ApprovalRequired => P.RequireApproval
                                      case _ => P.Allow)
  {
    var active := ActiveRules(w, pi.tenant, pi.user);
    if active.Some? {
      P.PurchaseVerdict(active.value.rules, PolicyInput(pi));
    }
  }

  /** What is stored for a request: denied, awaiting approval, or authorized, as the rules decide; left under evaluation
      when there are none. */
  predicate Stands(w: World, t: World, user: string, q: Request) {
    var n := w.deals.next;
    var tenant := if user in w.env.tenants then w.env.tenants[user] else "";
    var active := ActiveRules(w, tenant, user);
    && n in t.deals.intents && t.deals.intents == w.deals.intents[n := t.deals.intents[n]]
    && var pi := t.deals.intents[n];
       && pi.tenant == tenant && pi.user == user && pi.request == q && pi.receipt == None
       && t.demo == w.demo && t.record.outcomes == w.record.outcomes
       && if active == None then
            && pi.status == S.PolicyEvaluating && t.deals.approvals == w.deals.approvals
            && t.deals.latest == w.deals.latest && t.deals.next == n + 1
          else
            var to := VerdictOn(active.value.rules, q);
            && pi.status == to
            && t.record.audit == w.record.audit + [Event(n, None, Some(S.Draft)),
                                                   Event(n, Some(S.Draft), Some(S.PolicyEvaluating)),
                                                   Event(n, None, None),
                                                   Event(n, Some(S.PolicyEvaluating), Some(to))]
            && if to == S.Denied then
                 t.deals.approvals == w.deals.approvals && t.deals.latest == w.deals.latest && t.deals.next == n + 1
               else
                 && t.deals.approvals == w.deals.approvals[n + 1 := ApprovalOf(w, n, user, q,
                                                                              if to == S.Authorized then Approved
                                                                              else Pending)]
                 && t.deals.latest == w.deals.latest[n := n + 1] && t.deals.next == n + 2
  }

  lemma {:induction false} EvaluatedStands(w: World, user: string, q: Request)
    requires user in w.env.tenants
    ensures var pi := Intent(w.env.tenants[user], user, q, S.Draft, "", None);
            Stands(w, Evaluated(w, pi, Judge(w, pi)), user, q)
  {
    var pi := Intent(w.env.tenants[user], user, q, S.Draft, "", None);
    var n := w.deals.next;
    var u := Stored(Placed(w, pi), n, pi, S.PolicyEvaluating);
    PlacedExactly(w, pi);
    JudgeExactly(w, pi);
    var d := Judge(w, pi);
    if d.Ok? {
      var row := u.deals.intents[n].(policyVersion := d.value.version);
      DecidedExactly(Log(u, Event(n, None, None)), n, row, d.value.decision);
    }
  }

  /** A payment is created exactly for an agent that may, and answered with its id exactly when there are rules to judge
      it by. */
  lemma {:induction false} CreateExactly(w: World, agent: string, q: Request)
    ensures var (t, r) := Create(w, agent, q);
            if MayCreate(w, agent, q) then
              var user := w.env.agents[agent].user;
              && Stands(w, t, user, q)
              && (r == if ActiveRules(w, w.env.tenants[user], user).Some? then Ok(w.deals.next) else Err(Conflict))
            else t == w && r.Err?
  {
    if MayCreate(w, agent, q) {
      var user := w.env.agents[agent].user;
      EvaluatedStands(w, user, q);
      JudgeExactly(w, Intent(w.env.tenants[user], user, q, S.Draft, "", None));
    }
  }

  // ----- decisions and revocation

  /** The parent of an approval after a decision: moved if it is in a state that allows it, else left alone. */
  predicate ParentFollows(w: World, t: World, n: nat, sources: set<S.State>, to: S.State) {
    if n in w.deals.intents && w.deals.intents[n].status in sources
    then && t.deals.intents == w.deals.intents[n := w.deals.intents[n].(status := to)]
         && t.record.audit == w.record.audit + [Event(n, Some(w.deals.intents[n].status), Some(to))]
    else t.deals.intents == w.deals.intents && t.record.audit == w.record.audit
  }

  predicate OnlyDecided(w: World, t: World) {
    && t.deals.latest == w.deals.latest && t.deals.next == w.deals.next && t.demo == w.demo && t.env == w.env
    && t.record.outcomes == w.record.outcomes
  }

  lemma {:induction false} ParentMoves(w: World, n: nat, sources: set<S.State>, to: S.State)
    requires sources == S.Predecessors(to)
    ensures var (t, e) := MoveParent(w, n, to);
            && ParentFollows(w, t, n, sources, to) && OnlyDecided(w, t) && t.deals.approvals == w.deals.approvals
            && (e == None <==> n in w.deals.intents && w.deals.intents[n].status in sources)
  {
    if n in w.deals.intents {
      S.ReachedFrom(w.deals.intents[n].status, to);
    }
  }

  const CANCELLABLE: set<S.State> :=
    {S.Draft, S.PolicyEvaluating, S.ApprovalRequired, S.Authorized, S.ReadyToExecute, S.MerchantActionRequired,
     S.ProviderUnavailable}

  predicate RefusedFor(w: World, user: string, a: nat, e: Error) {
    e == if a !in w.deals.approvals then NotFound else if w.deals.approvals[a].user != user then Unauthorized
         else Conflict
  }

  /** A payment is approved exactly by its own user, while the approval is PENDING and not past its expiry. */
  lemma {:induction false} ApproveExactly(w: World, user: string, a: nat)
    ensures var (t, e) := Approve(w, user, a);
            if a in w.deals.approvals && w.deals.approvals[a].user == user
               && w.deals.approvals[a].status == Pending && w.env.now <= w.deals.approvals[a].expiresAt then
              var row := w.deals.approvals[a];
              && t.deals.approvals == w.deals.approvals[a := row.(status := Approved)]
              && ParentFollows(w, t, row.parent, {S.PolicyEvaluating, S.ApprovalRequired}, S.Authorized)
              && OnlyDecided(w, t)
            else t == w && e.Some? && RefusedFor(w, user, a, e.value)
  {
    if a in w.deals.approvals && w.deals.approvals[a].user == user && w.deals.approvals[a].status == Pending
       && !IsExpired(w.deals.approvals[a], w.env.now) {
      ParentMoves(WithStatus(w, a, Approved), w.deals.approvals[a].parent, {S.PolicyEvaluating, S.ApprovalRequired},
                  S.Authorized);
    }
  }

  /** It is rejected exactly by its own user, while PENDING or awaiting reapproval, and its intent is cancelled with
      it. */
  lemma {:induction false} RejectExactly(w: World, user: string, a: nat)
    ensures var (t, e) := Reject(w, user, a);
            if a in w.deals.approvals && w.deals.approvals[a].user == user
               && w.deals.approvals[a].status in {Pending, ReapprovalRequired} then
              var row := w.deals.approvals[a];
              && t.deals.approvals == w.deals.approvals[a := row.(status := Rejected)]
              && ParentFollows(w, t, row.parent, CANCELLABLE, S.Cancelled) && OnlyDecided(w, t)
            else t == w && e.Some? && RefusedFor(w, user, a, e.value)
  {
    if a in w.deals.approvals && w.deals.approvals[a].user == user
       && w.deals.approvals[a].status in {Pending, ReapprovalRequired} {
      ParentMoves(WithStatus(w, a, Rejected), w.deals.approvals[a].parent, CANCELLABLE, S.Cancelled);
    }
  }

  /** What a revocation makes of each state: REVOKED while somebody has been asked or money could move, CANCELLED before
      that and after a provider has failed, and nothing in any other state. No approval changes. */
  lemma {:induction false} RevokeExactly(w: World, agent: string, n: nat)
    ensures var (t, e) := Revoke(w, agent, n);
            var revocable := {S.ApprovalRequired, S.Authorized, S.ReadyToExecute};
            if MayAct(w, agent, PaymentsExecute, n) && w.deals.intents[n].status in CANCELLABLE then
              var pi := w.deals.intents[n];
              var to := if pi.status in revocable then S.Revoked else S.Cancelled;
              && e == None && t.deals.intents == w.deals.intents[n := pi.(status := to)]
              && t.record.audit == w.record.audit + [Event(n, Some(pi.status), Some(to))]
              && t.deals.approvals == w.deals.approvals && OnlyDecided(w, t)
            else t == w && e.Some?
  {
    if MayAct(w, agent, PaymentsExecute, n) {
      S.ReachedFrom(w.deals.intents[n].status, S.Cancelled);
      S.ReachedFrom(w.deals.intents[n].status, S.Revoked);
    }
  }

  // ----- executing

  /** Execute gets past its checks exactly on an AUTHORIZED intent of the agent's user whose latest approval is APPROVED
      and not past its expiry. */
  predicate Payable(w: World, agent: string, n: nat) {
    && MayAct(w, agent, PaymentsExecute, n) && w.deals.intents[n].status == S.Authorized
    && n in w.deals.latest && w.deals.latest[n] in w.deals.approvals
    && w.deals.approvals[w.deals.latest[n]].status == Approved
    && w.env.now <= w.deals.approvals[w.deals.latest[n]].expiresAt
  }

  lemma {:induction false} ReadyExactly(w: World, agent: string, n: nat)
    ensures Ready(w, agent, n).Ok? <==> Payable(w, agent, n)
    ensures Ready(w, agent, n).Ok? ==> Ready(w, agent, n).value == w.deals.latest[n]
  {
  }

  /** Where a provider's answer leaves the intent. */
  function Landed(answer: Result<D.PaymentResult, Error>): S.State {
    if answer.Err? then S.Failed
    else match answer.value.status
      case Succeeded => S.Succeeded
      case AuthenticationRequired => S.AuthenticationRequired
      case ProviderUnavailable => S.ProviderUnavailable
      case Declined => S.Failed
      case Failed => S.Failed
  }

  /** The receipt kept of a provider's answer: of a success with its transaction, and of nothing else. */
  function Kept(before: Option<Receipt>, answer: Result<D.PaymentResult, Error>): Option<Receipt> {
    match answer
    case Ok(PaymentResult(Succeeded, Some(t), amount, currency, _, _)) => Some(Receipt(t, amount, currency))
    case _ => before
  }

  lemma {:induction false} SettleExactly(w: World, n: nat, answer: Result<D.PaymentResult, Error>)
    requires n in w.deals.intents
    ensures var (t, o) := Settle(w, n, answer);
            var pi := w.deals.intents[n];
            && t.deals.intents
                 == w.deals.intents[n := pi.(status := Landed(answer), receipt := Kept(pi.receipt, answer))]
            && t.deals.approvals == w.deals.approvals && t.deals.latest == w.deals.latest && t.demo == w.demo
            && t.record.audit == w.record.audit + [Event(n, Some(pi.status), Some(Landed(answer)))]
            && t.record.outcomes == w.record.outcomes && t.env == w.env
            && o == Outcome(Landed(answer), if answer.Ok? then Some(answer.value) else None)
  {
  }

  /** The three audited moves of a payment whose credential is there, before the provider is called. */
  function PaidTrail(n: nat): seq<Event<S.State>> {
    [Event(n, Some(S.Authorized), Some(S.CredentialPreparing)),
     Event(n, Some(S.CredentialPreparing), Some(S.ReadyToExecute)),
     Event(n, Some(S.ReadyToExecute), Some(S.Processing))]
  }

  lemma {:induction false} ClaimedExactly(w: World, n: nat, a: nat)
    requires n in w.deals.intents && a in w.deals.approvals && w.deals.intents[n].status == S.CredentialPreparing
    ensures var t := Claimed(w, n, a);
            && t.deals.intents == w.deals.intents[n := w.deals.intents[n].(status := S.Processing)]
            && t.deals.approvals == w.deals.approvals[a := w.deals.approvals[a].(status := Consumed)]
            && t.record.audit == w.record.audit + [Event(n, Some(S.CredentialPreparing), Some(S.ReadyToExecute)),
                                                   Event(n, Some(S.ReadyToExecute), Some(S.Processing))]
            && t.deals.latest == w.deals.latest && t.demo == w.demo && t.env == w.env
            && t.record.outcomes == w.record.outcomes
  {
    var pi := w.deals.intents[n];
    assert w.deals.intents[n := pi.(status := S.ReadyToExecute)][n := pi.(status := S.Processing)]
           == w.deals.intents[n := pi.(status := S.Processing)];
  }

  /** The provider's answer to a payment on a credential. */
  function AnswerTo(d: D.Demo, key: string, c: nat, q: Request, scenario: D.Scenario, now: int)
    : Result<D.PaymentResult, Error>
  {
    D.Paid(d, key, c, q.amount, q.currency, scenario, now).1
  }

  /** The rows once the provider has answered: the approval claimed, the intent where the answer leaves it, with the
      receipt of a success. */
  predicate PaidRows(w: World, t: World, n: nat, a: nat, answer: Result<D.PaymentResult, Error>)
    requires n in w.deals.intents && a in w.deals.approvals
  {
    var pi := w.deals.intents[n];
    && t.deals.approvals == w.deals.approvals[a := w.deals.approvals[a].(status := Consumed)]
    && t.deals.intents == w.deals.intents[n := pi.(status := Landed(answer), receipt := Kept(pi.receipt, answer))]
    && t.deals.latest == w.deals.latest
  }

  lemma {:induction false} PayExactly(w: World, key: string, n: nat, a: nat, c: nat, scenario: D.Scenario)
    requires n in w.deals.intents && a in w.deals.approvals && w.deals.intents[n].status == S.CredentialPreparing
    ensures var (t, o) := Pay(w, key, n, a, c, scenario);
            var q := w.deals.intents[n].request;
            var answer := AnswerTo(w.demo, key, c, q, scenario, w.env.now);
            && PaidRows(w, t, n, a, answer)
            && t.demo == D.Paid(w.demo, key, c, q.amount, q.currency, scenario, w.env.now).0
            && t.record.audit == w.record.audit + [Event(n, Some(S.CredentialPreparing), Some(S.ReadyToExecute)),
                                                   Event(n, Some(S.ReadyToExecute), Some(S.Processing)),
                                                   Event(n, Some(S.Processing), Some(Landed(answer)))]
            && t.record.outcomes == w.record.outcomes && o.status == Landed(answer)
  {
    var pi := w.deals.intents[n];
    var u := Claimed(w, n, a);
    ClaimedExactly(w, n, a);
    var paid := D.Paid(u.demo, key, c, pi.request.amount, pi.request.currency, scenario, u.env.now);
    SettleExactly(WithDemo(u, paid.0), n, paid.1);
    var last := pi.(status := Landed(paid.1), receipt := Kept(pi.receipt, paid.1));
    assert w.deals.intents[n := pi.(status := S.Processing)][n := last] == w.deals.intents[n := last];
  }

  /** The world once the provider has been asked for a credential: only the intent's row has moved. */
  lemma {:induction false} PreparingExactly(w: World, n: nat, a: nat)
    requires n in w.deals.intents && a in w.deals.approvals
    ensures var (u, c) := Preparing(w, n, a);
            var pi := w.deals.intents[n];
            && u.deals.intents == w.deals.intents[n := pi.(status := S.CredentialPreparing)]
            && u.deals.approvals == w.deals.approvals && u.deals.latest == w.deals.latest && u.env == w.env
            && u.record.audit == w.record.audit + [Event(n, Some(pi.status), Some(S.CredentialPreparing))]
            && u.record.outcomes == w.record.outcomes
            && (u.demo, c) == Prepare(w.demo, pi.user, pi.request, w.deals.approvals[a].expiresAt, w.env.now)
  {
  }

  /** Without a credential the intent ends in PROVIDER_UNAVAILABLE and its approval is spared. */
  predicate Unprepared(w: World, t: World, n: nat)
    requires n in w.deals.intents
  {
    && t.deals.approvals == w.deals.approvals && t.deals.latest == w.deals.latest
    && t.deals.intents == w.deals.intents[n := w.deals.intents[n].(status := S.ProviderUnavailable)]
    && t.record.audit == w.record.audit + [Event(n, Some(S.Authorized), Some(S.CredentialPreparing)),
                                           Event(n, Some(S.CredentialPreparing), Some(S.ProviderUnavailable))]
  }

  lemma {:induction false} StoredTwice(rows: map<nat, Intent>, n: nat, once: Intent, again: Intent)
    ensures rows[n := once][n := again] == rows[n := again]
  {
  }

  /** What an execution past its checks comes to, given the credential that was prepared, or that none was. */
  lemma {:induction false} ProceedExactly(w: World, key: string, n: nat, a: nat, scenario: D.Scenario)
    requires n in w.deals.intents && a in w.deals.approvals && w.deals.intents[n].status == S.Authorized
    ensures var (u, c) := Preparing(w, n, a);
            var (t, o) := Proceed(u, key, n, a, c, scenario);
            if c.Err? then Unprepared(w, t, n) && o == Outcome(S.ProviderUnavailable, None) && t.demo == u.demo
            else
              var answer := AnswerTo(u.demo, key, c.value, w.deals.intents[n].request, scenario, w.env.now);
              && PaidRows(w, t, n, a, answer) && o.status == Landed(answer)
              && t.record.audit == w.record.audit + PaidTrail(n) + [Event(n, Some(S.Processing), Some(Landed(answer)))]
  {
    var pi := w.deals.intents[n];
    var (u, c) := Preparing(w, n, a);
    PreparingExactly(w, n, a);
    if c.Ok? {
      PayExactly(u, key, n, a, c.value, scenario);
      var answer := AnswerTo(u.demo, key, c.value, pi.request, scenario, w.env.now);
      StoredTwice(w.deals.intents, n, pi.(status := S.CredentialPreparing),
                  pi.(status := Landed(answer), receipt := Kept(pi.receipt, answer)));
    } else {
      StoredTwice(w.deals.intents, n, pi.(status := S.CredentialPreparing), pi.(status := S.ProviderUnavailable));
    }
  }

  /** Everything that can come of executing a payment: it is refused and changes nothing; no credential can be had,
      which at the demo provider means a negative tolerance; or the approval is claimed, the provider is called once
      on a credential of the user's own for the request, and its answer decides. */
  lemma {:induction false} ExecuteExactly(w: World, key: string, agent: string, n: nat, scenario: D.Scenario)
    requires D.Sound(w.demo)
    ensures var (t, r) := ExecuteOnce(w, key, agent, n, scenario);
            if !Payable(w, agent, n) then t == w && r.Err?
            else
              var pi, a := w.deals.intents[n], w.deals.latest[n];
              if pi.request.tolerance < 0 then
                Unprepared(w, t, n) && r == Ok(Outcome(S.ProviderUnavailable, None))
              else
                var (u, c) := Preparing(w, n, a);
                && c.Ok? && E.Prepared(u.demo, c.value, pi.user, pi.request, w.deals.approvals[a].expiresAt, w.env.now)
                && var answer := AnswerTo(u.demo, key, c.value, pi.request, scenario, w.env.now);
                   && PaidRows(w, t, n, a, answer) && r.Ok? && r.value.status == Landed(answer)
                   && t.record.audit
                      == w.record.audit + PaidTrail(n) + [Event(n, Some(S.Processing), Some(Landed(answer)))]
  {
    ReadyExactly(w, agent, n);
    if Payable(w, agent, n) {
      var pi, a := w.deals.intents[n], w.deals.latest[n];
      E.PrepareResult(w.demo, pi.user, pi.request, w.deals.approvals[a].expiresAt, w.env.now);
      PreparingExactly(w, n, a);
      ProceedExactly(w, key, n, a, scenario);
    }
  }

  lemma {:induction false} KeyExactly(w: World, key: string, agent: string, n: nat, scenario: D.Scenario)
    ensures var (t, r) := Execute(w, key, agent, n, scenario);
            if key != "" && (key, n) in w.record.outcomes then t == w && r == Ok(w.record.outcomes[(key, n)])
            else
              var (u, s) := ExecuteOnce(w, key, agent, n, scenario);
              && r == s && t.deals == u.deals && t.demo == u.demo && t.env == u.env && t.record.audit == u.record.audit
              && t.record.outcomes == if key != "" && s.Ok? then u.record.outcomes[(key, n) := s.value]
                                      else u.record.outcomes
  {
  }

  predicate Claims(w: World, t: World, a: nat) {
    && a in w.deals.approvals && w.deals.approvals[a].status != Consumed
    && a in t.deals.approvals && t.deals.approvals[a].status == Consumed
  }

  /** Execute claims an approval exactly if it is the latest of a payable intent, in time, with no negative tolerance,
      and the key has not been answered. */
  lemma {:induction false} ClaimsExactly(w: World, key: string, agent: string, n: nat, scenario: D.Scenario, a: nat)
    requires D.Sound(w.demo)
    ensures Claims(w, Execute(w, key, agent, n, scenario).0, a)
            <==> && (key == "" || (key, n) !in w.record.outcomes)
                 && Payable(w, agent, n) && w.deals.latest[n] == a && w.deals.intents[n].request.tolerance >= 0
  {
    KeyExactly(w, key, agent, n, scenario);
    ExecuteExactly(w, key, agent, n, scenario);
  }

  // ----- the life of an approval

  predicate SameDeal(a: Approval, b: Approval) {
    && a.parent == b.parent && a.user == b.user && a.merchant == b.merchant && a.amount == b.amount
    && a.alias == b.alias && a.itemsHash == b.itemsHash && a.expiresAt == b.expiresAt
  }

  /** Everything that can happen to an approval in a step: its own user approves it in time, or rejects it while it is
      open; an execution claims it in time, for its own payable intent; or it is created as the rules decided. */
  predicate ApprovalStep(w: World, op: Op, a: nat, t: World) {
    if a in w.deals.approvals then
      && a in t.deals.approvals
      && var row, after := w.deals.approvals[a], t.deals.approvals[a];
         || after == row
         || (op == Approves(row.user, a) && row.status == Pending && w.env.now <= row.expiresAt
             && after == row.(status := Approved))
         || (op == Rejects(row.user, a) && row.status in {Pending, ReapprovalRequired}
             && after == row.(status := Rejected))
         || (op.Asks? && op.ask.Executing? && Payable(w, op.asker, op.ask.intent) && w.deals.latest[op.ask.intent] == a
             && after == row.(status := Consumed))
    else a in t.deals.approvals ==>
           && op.Asks? && op.ask.Creating? && MayCreate(w, op.asker, op.ask.request)
           && var user := w.env.agents[op.asker].user;
              var active := ActiveRules(w, w.env.tenants[user], user);
              && active.Some? && VerdictOn(active.value.rules, op.ask.request) != S.Denied
              && t.deals.approvals[a]
                 == ApprovalOf(w, w.deals.next, user, op.ask.request,
                               if VerdictOn(active.value.rules, op.ask.request) == S.Authorized then Approved
                               else Pending)
  }

  /** What an execution can do to the approvals. */
  lemma {:induction false} ExecutedApprovals(w: World, key: string, agent: string, n: nat, scenario: D.Scenario)
    ensures var t := ExecuteOnce(w, key, agent, n, scenario).0;
            t.deals.next == w.deals.next
            && (|| t.deals.approvals == w.deals.approvals
                || (Payable(w, agent, n) && var a := w.deals.latest[n];
                    t.deals.approvals == w.deals.approvals[a := w.deals.approvals[a].(status := Consumed)]))
  {
    ReadyExactly(w, agent, n);
    if Payable(w, agent, n) {
      PreparingExactly(w, n, w.deals.latest[n]);
      ProceedExactly(w, key, n, w.deals.latest[n], scenario);
    }
  }

  lemma {:induction false} AskedApproval(w: World, agent: string, ask: Ask, a: nat)
    requires forall b | b in w.deals.approvals :: b < w.deals.next
    ensures ApprovalStep(w, Asks(agent, ask), a, Asked(w, agent, ask))
  {
    match ask
    case Creating(q) => CreateExactly(w, agent, q);
    case Executing(key, n, scenario) =>
      KeyExactly(w, key, agent, n, scenario);
      ExecutedApprovals(w, key, agent, n, scenario);
    case Revoking(n) => RevokeExactly(w, agent, n);
  }

  /** Whatever happens, here or at the provider, an approval changes only so. */
  lemma {:induction false} ApprovalLife(w: World, op: Op, a: nat)
    requires forall b | b in w.deals.approvals :: b < w.deals.next
    ensures ApprovalStep(w, op, a, Step(w, op))
  {
    match op
    case Asks(agent, ask) => AskedApproval(w, agent, ask, a);
    case Approves(user, b) => ApproveExactly(w, user, b);
    case Rejects(user, b) => RejectExactly(w, user, b);
    case _ =>
  }
}
