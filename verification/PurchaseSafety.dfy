/** What holds in every world a deployment can reach, whatever is asked of it and in whatever order. */
module PurchaseSafety {
  import opened AuditTrails
  import opened Results
  import opened Approvals
  import opened PurchaseFlow
  import opened PurchaseInvariants
  import opened PurchaseExecution
  import opened PurchaseFrames
  import S = PurchaseStates

  // ----- one step

  /** The intent a request is about; a creation is about the next id. */
  function Subject(w: World, r: Request): nat {
    if r.Creating? then w.market.next else r.intent
  }

  lemma {:induction false} ShoppedNear(w: World, agent: string, r: Request, m: nat)
    requires Ids(w) && Good(w, Subject(w, r)) && IsShopping(r)
    ensures Near(w, Shopped(w, agent, r), Subject(w, r), m)
  {
    match r
    case Creating(key, user, items, c) => CreateNear(w, key, agent, user, items, c, m);
    case Discovering(n, cs) => DiscoverNear(w, agent, n, cs, m);
    case Selecting(n, q) => SelectNear(w, agent, n, q, m);
    case Evaluating(n) => EvaluateNear(w, agent, n, m);
  }

  lemma {:induction false} OrderedBeside(w: World, agent: string, r: Request, m: nat)
    requires Ids(w) && !IsShopping(r)
    ensures Beside(w, Ordered(w, agent, r), r.intent, m)
  {
    match r
    case Executing(key, n, e) => ExecuteNear(w, key, agent, n, e, m);
    case Authenticating(n, mo, ok, order, at) => AuthenticationNear(w, agent, n, mo, ok, order, at, m);
    case Cancelling(n) => CancelNear(w, agent, n, m);
    case CancellingOrder(n, answer) => CancelOrderNear(w, agent, n, answer, m);
  }

  lemma {:induction false} AskedBeside(w: World, agent: string, r: Request, m: nat)
    requires Ids(w) && Good(w, Subject(w, r))
    ensures Beside(w, Asked(w, agent, r), Subject(w, r), m)
  {
    if IsShopping(r) {
      ShoppedNear(w, agent, r, m);
    } else {
      OrderedBeside(w, agent, r, m);
    }
  }

  lemma {:induction false} ShoppedKeeps(w: World, agent: string, r: Request)
    requires Ids(w) && Good(w, Subject(w, r)) && IsShopping(r)
    ensures Good(Shopped(w, agent, r), Subject(w, r))
  {
    match r
    case Creating(key, user, items, c) => CreateKeeps(w, key, agent, user, items, c);
    case Discovering(n, cs) => DiscoverKeeps(w, agent, n, cs);
    case Selecting(n, q) => SelectKeeps(w, agent, n, q);
    case Evaluating(n) => EvaluateKeeps(w, agent, n);
  }

  lemma {:induction false} OrderedKeeps(w: World, agent: string, r: Request)
    requires Ids(w) && Good(w, Subject(w, r)) && !IsShopping(r)
    ensures Good(Ordered(w, agent, r), Subject(w, r))
  {
    match r
    case Executing(key, n, e) => ExecuteKeeps(w, key, agent, n, e);
    case Authenticating(n, mo, ok, order, at) => AuthenticationKeeps(w, agent, n, mo, ok, order, at);
    case Cancelling(n) => CancelKeeps(w, agent, n);
    case CancellingOrder(n, answer) => CancelOrderKeeps(w, agent, n, answer);
  }

  lemma {:induction false} AskedKeeps(w: World, agent: string, r: Request)
    requires Ids(w) && Good(w, Subject(w, r))
    ensures Good(Asked(w, agent, r), Subject(w, r))
  {
    if IsShopping(r) {
      ShoppedKeeps(w, agent, r);
    } else {
      OrderedKeeps(w, agent, r);
    }
  }

  lemma {:induction false} DecidedBeside(w: World, user: string, a: nat, d: PurchaseFlow.Decision, m: nat)
    requires Ids(w)
    ensures Near(w, DecidedBy(w, user, a, d), ParentOf(w, a), m)
  {
    match d
    case Approving => ApproveNear(w, user, a, m);
    case Rejecting => RejectNear(w, user, a, m);
    case Reapproving(remote) => ReapproveNear(w, user, a, remote, m);
  }

  lemma {:induction false} DecidedKeeps(w: World, user: string, a: nat, d: PurchaseFlow.Decision)
    requires Ids(w) && Good(w, ParentOf(w, a))
    ensures Good(DecidedBy(w, user, a, d), ParentOf(w, a))
  {
    if a in w.deals.approvals {
      match d
      case Approving => ApproveKeeps(w, user, a);
      case Rejecting => RejectKeeps(w, user, a);
      case Reapproving(remote) => ReapproveKeeps(w, user, a, remote);
    }
  }

  /** A step that keeps its own case good, and leaves the others alone, keeps every case good. */
  lemma {:induction false} BesideGood(w: World, t: World, n: nat, m: nat)
    requires Good(w, m) && Good(t, n) && Beside(w, t, n, m)
    ensures Good(t, m)
  {
  }

  lemma {:induction false} AskedGood(w: World, agent: string, r: Request, m: nat)
    requires Inv(w)
    ensures Good(Asked(w, agent, r), m)
    ensures Ids(Asked(w, agent, r)) && Asked(w, agent, r).env == w.env
  {
    var n := Subject(w, r);
    assert Good(w, n) && Good(w, m);
    AskedKeeps(w, agent, r);
    AskedBeside(w, agent, r, m);
    BesideGood(w, Asked(w, agent, r), n, m);
  }

  lemma {:induction false} DecidedGood(w: World, user: string, a: nat, d: PurchaseFlow.Decision, m: nat)
    requires Inv(w)
    ensures Good(DecidedBy(w, user, a, d), m)
    ensures Ids(DecidedBy(w, user, a, d)) && DecidedBy(w, user, a, d).env == w.env
  {
    var n := ParentOf(w, a);
    assert Good(w, n) && Good(w, m);
    DecidedKeeps(w, user, a, d);
    DecidedBeside(w, user, a, d, m);
    BesideGood(w, DecidedBy(w, user, a, d), n, m);
  }

  lemma {:induction false} ChangedGood(w: World, c: Change, m: nat)
    requires Inv(w)
    ensures Good(Changed(w, c), m) && Ids(Changed(w, c)) && Changed(w, c).env.cfg == w.env.cfg
  {
    assert Good(w, m);
    var t := Changed(w, c);
    assert t.deals == w.deals && t.record == w.record;
  }

  lemma {:induction false} StepGood(w: World, op: Op, m: nat)
    requires Inv(w)
    ensures Good(Step(w, op), m) && Ids(Step(w, op)) && Step(w, op).env.cfg == w.env.cfg
  {
    match op
    case Asks(agent, r) => AskedGood(w, agent, r, m);
    case Decides(user, a, d) => DecidedGood(w, user, a, d, m);
    case Happens(c) => ChangedGood(w, c, m);
  }

  lemma {:induction false} StepKeeps(w: World, op: Op)
    requires Inv(w)
    ensures Inv(Step(w, op)) && Step(w, op).env.cfg == w.env.cfg
  {
    StepGood(w, op, 0);
    forall m: nat
      ensures Good(Step(w, op), m)
    {
      StepGood(w, op, m);
    }
  }

  lemma {:induction false} RunKeeps(w: World, ops: seq<Op>)
    requires Inv(w)
    ensures Inv(Run(w, ops)) && Run(w, ops).env.cfg == w.env.cfg
  {
    if ops != [] {
      RunKeeps(w, ops[..|ops| - 1]);
      StepKeeps(Run(w, ops[..|ops| - 1]), ops[|ops| - 1]);
    }
  }

  lemma {:induction false} FreshIsGood(w: World)
    requires Fresh(w)
    ensures Inv(w)
  {
  }

  lemma {:induction false} Reachable(w: World, ops: seq<Op>)
    requires Fresh(w)
    ensures Inv(Run(w, ops)) && Run(w, ops).env.cfg == w.env.cfg
  {
    FreshIsGood(w);
    RunKeeps(w, ops);
  }

  // ----- the stores agree with each other

  function ApprovalStatus(w: World, n: nat): Option<Status> {
    if n in w.deals.latest && w.deals.latest[n] in w.deals.approvals
    then Some(w.deals.approvals[w.deals.latest[n]].status) else None
  }

  /** Some recorded event moved the intent to EXECUTING. */
  ghost predicate HasExecuted(log: seq<Event<S.State>>, n: nat) {
    exists k | 0 <= k < |log| :: log[k].intent == n && log[k].next == Some(S.Executing)
  }

  lemma {:induction false} EnteredMeans(log: seq<Event<S.State>>, n: nat)
    ensures Entered(log, n) ==> HasExecuted(log, n)
  {
    if log != [] {
      var last := |log| - 1;
      EnteredMeans(log[..last], n);
      if HasExecuted(log[..last], n) {
        var k :| 0 <= k < last && log[..last][k].intent == n && log[..last][k].next == Some(S.Executing);
        assert log[k] == log[..last][k];
      } else if Entered(log, n) {
        assert log[last].intent == n;
      }
    }
  }

  ghost predicate StoresAgree(w: World, n: nat)
    requires n in w.deals.intents
  {
    var s := w.deals.intents[n].status;
    && (s == S.Approved ==> ApprovalStatus(w, n) == Some(Approved))
    && (s == S.ReapprovalRequired ==> ApprovalStatus(w, n) == Some(ReapprovalRequired))
    && (ApprovalStatus(w, n) == Some(Consumed) ==> HasExecuted(w.record.audit, n))
    && |OrdersOf(w.record.orders, n)| == if s == S.Succeeded then 1 else 0
  }

  /** Whatever was asked, in whatever order: an APPROVED intent has an APPROVED approval, one awaiting
      reapproval an approval awaiting it, a consumed approval an executed intent, and an intent has one order
      exactly when it SUCCEEDED. */
  lemma {:induction false} StoresAlwaysAgree(w: World, ops: seq<Op>, n: nat)
    requires Fresh(w) && n in Run(w, ops).deals.intents
    ensures StoresAgree(Run(w, ops), n)
  {
    var t := Run(w, ops);
    Reachable(w, ops);
    assert Good(t, n);
    EnteredMeans(t.record.audit, n);
  }

  lemma {:induction false} HasOrder(orders: seq<Order>, i: nat)
    requires i < |orders|
    ensures |OrdersOf(orders, orders[i].intent)| > 0
  {
    if i < |orders| - 1 {
      HasOrder(orders[..|orders| - 1], i);
    }
  }

  lemma {:induction false} HasTwoOrders(orders: seq<Order>, i: nat, j: nat)
    requires i < j < |orders| && orders[i].intent == orders[j].intent
    ensures |OrdersOf(orders, orders[i].intent)| > 1
  {
    var init := orders[..|orders| - 1];
    if j < |orders| - 1 {
      HasTwoOrders(init, i, j);
    } else {
      HasOrder(init, i);
    }
  }

  /** No two orders were ever placed for one intent, nor on one approval. */
  lemma {:induction false} OneOrderPerApproval(w: World, ops: seq<Op>, i: nat, j: nat)
    requires Fresh(w) && i < j < |Run(w, ops).record.orders|
    ensures var orders := Run(w, ops).record.orders;
            orders[i].intent != orders[j].intent && orders[i].approval != orders[j].approval
  {
    var t := Run(w, ops);
    var orders := t.record.orders;
    Reachable(w, ops);
    OrderBelongs(t, i);
    OrderBelongs(t, j);
    assert Good(t, orders[i].intent);
    if orders[i].intent == orders[j].intent {
      HasTwoOrders(orders, i, j);
    }
  }

  lemma {:induction false} OnlyOrder(orders: seq<Order>, k: nat)
    requires k < |orders| && |OrdersOf(orders, orders[k].intent)| == 1
    ensures OrdersOf(orders, orders[k].intent) == [orders[k]]
  {
    var init := orders[..|orders| - 1];
    if k < |orders| - 1 {
      HasOrder(init, k);
      OnlyOrder(init, k);
    }
  }

  /** An order is the one of its intent, and was placed on that intent's consumed approval. */
  lemma {:induction false} OrderBelongs(t: World, k: nat)
    requires Inv(t) && k < |t.record.orders|
    ensures var o := t.record.orders[k];
            && o.intent in t.deals.intents && t.deals.intents[o.intent].status == S.Succeeded
            && o.intent in t.deals.latest && o.approval == t.deals.latest[o.intent]
            && OrderOk(t.env.cfg, CaseOf(t, o.intent), o)
  {
    var o := t.record.orders[k];
    assert Good(t, o.intent);
    HasOrder(t.record.orders, k);
    OnlyOrder(t.record.orders, k);
  }

  // ----- the audit log replays to the state

  /** In every run, the state-bearing events of each intent form one legal chain from DRAFT to its stored status. */
  lemma {:induction false} AuditReplays(w: World, ops: seq<Op>, n: nat)
    requires Fresh(w) && n in Run(w, ops).deals.intents
    ensures var t := Run(w, ops);
            var es := StateEvents(t.record.audit, n);
            Chained(S.CanTransition, S.Draft, es) && es[|es| - 1].next == Some(t.deals.intents[n].status)
  {
    var t := Run(w, ops);
    Reachable(w, ops);
    assert Good(t, n);
    ReplayMeans(S.CanTransition, S.Draft, t.record.audit, n);
  }

  lemma {:induction false} ChainMilestones(es: seq<Event<S.State>>) returns (d: nat, q: nat, p: nat, a: nat, e: nat)
    requires Chained(S.CanTransition, S.Draft, es) && es[|es| - 1].next == Some(S.Succeeded)
    ensures 0 < d < q < p < a < e < |es| - 1
    ensures es[d].next == Some(S.Discovering) && es[q].next == Some(S.Quoted) && es[p].next == Some(S.PolicyCheck)
    ensures es[a].next == Some(S.Approved) && es[e].next == Some(S.Executing)
  {
    var path := ChainIsPath(S.CanTransition, S.Draft, es);
    d, q, p, a, e := S.Milestones(path);
  }

  /** So an intent that SUCCEEDED shows discovery, a quote, a policy check, an approval and an execution in its
      audit trail, in this order. */
  lemma {:induction false} SuccessIsAudited(w: World, ops: seq<Op>, n: nat)
    returns (d: nat, q: nat, p: nat, a: nat, e: nat)
    requires Fresh(w) && n in Run(w, ops).deals.intents && Run(w, ops).deals.intents[n].status == S.Succeeded
    ensures var es := StateEvents(Run(w, ops).record.audit, n);
            && 0 < d < q < p < a < e < |es| - 1
            && es[d].next == Some(S.Discovering) && es[q].next == Some(S.Quoted) && es[p].next == Some(S.PolicyCheck)
            && es[a].next == Some(S.Approved) && es[e].next == Some(S.Executing)
  {
    AuditReplays(w, ops, n);
    d, q, p, a, e := ChainMilestones(StateEvents(Run(w, ops).record.audit, n));
  }

  // ----- what is charged is what was granted

  /** At the mock merchant, every order charges the granted amount, within tolerance, for the granted items,
      however often its quote was refreshed or its approval renewed before. */
  lemma {:induction false} OrdersHonourGrants(w: World, ops: seq<Op>, k: nat)
    requires Fresh(w) && w.env.cfg.remotes == {} && k < |Run(w, ops).record.orders|
    ensures var t := Run(w, ops);
            var o := t.record.orders[k];
            && o.approval in t.deals.approvals && o.approval in t.deals.terms
            && t.deals.terms[o.approval].granted
            && Close(o.total, t.deals.terms[o.approval].amount, t.env.cfg.tolerance)
            && o.merchant == t.deals.approvals[o.approval].merchant
    ensures var t := Run(w, ops);
            var o := t.record.orders[k];
            var granted := t.deals.terms[o.approval].items;
            Plain(o.merchant, o.items, o.total.currency) && Plain(o.merchant, granted, o.total.currency)
            ==> multiset(o.items) == multiset(granted)
  {
    var t := Run(w, ops);
    Reachable(w, ops);
    OrderBelongs(t, k);
    var o := t.record.orders[k];
    var row, terms := t.deals.approvals[o.approval], t.deals.terms[o.approval];
    if Plain(o.merchant, o.items, o.total.currency) && Plain(o.merchant, terms.items, o.total.currency) {
      DigestDetermines(o.merchant, o.items, o.total.currency, row.alias,
                       row.merchant, terms.items, terms.amount.currency, row.alias);
    }
  }
}
