/** Each operation touches the case of one intent only, and keeps ids fresh and approvals in one-to-one
    correspondence with the intents that have one. */
module PurchaseFrames {
  import opened AuditTrails
  import opened Results
  import opened Approvals
  import opened Quotes
  import opened PurchaseFlow
  import opened PurchaseInvariants
  import S = PurchaseStates
  import P = Policy
  import M = MockMerchant
  import opened PurchaseExecution

  /** From `w` to `t`, nothing about intent `m` changed, unless it is `n`. */
  ghost predicate Beside(w: World, t: World, n: nat, m: nat) {
    Ids(t) && t.env == w.env && (m != n ==> CaseOf(t, m) == CaseOf(w, m))
  }

  /** The same, and no order was placed or cancelled and no answer remembered. */
  ghost predicate Near(w: World, t: World, n: nat, m: nat) {
    Beside(w, t, n, m) && t.record.orders == w.record.orders && t.record.outcomes == w.record.outcomes
  }

  /** The only order that may have been placed is the one the answer carries. */
  ghost predicate Placing(w: World, t: World, r: Result<ExecuteOutcome, Error>) {
    && t.record.outcomes == w.record.outcomes
    && t.record.orders == if r.Ok? && r.value.order.Some? then w.record.orders + [r.value.order.value]
                          else w.record.orders
  }

  // ----- the store writes

  lemma {:induction false} MovedNear(w: World, n: nat, to: S.State, m: nat)
    requires Ids(w) && n in w.deals.intents
    ensures Near(w, Moved(w, n, to), n, m)
  {
    MovedCase(w, n, to, m);
  }

  lemma {:induction false} RowNear(w: World, a: nat, row: Approval, m: nat)
    requires Ids(w) && a in w.deals.approvals && row.parent == w.deals.approvals[a].parent
    ensures Near(w, PutApproval(w, a, row), row.parent, m)
  {
    RowCase(w, a, row, m);
  }

  lemma {:induction false} TermsNear(w: World, a: nat, row: Approval, t: Terms, m: nat)
    requires Ids(w) && a in w.deals.approvals && row.parent == w.deals.approvals[a].parent
    ensures Near(w, PutTerms(PutApproval(w, a, row), a, t), row.parent, m)
  {
    TermsCase(w, a, row, t, m);
  }

  lemma {:induction false} RecordedNear(w: World, o: Order, m: nat)
    requires Ids(w)
    ensures Beside(w, Recorded(w, o), o.intent, m)
  {
    RecordedCase(w, o, m);
  }

  lemma {:induction false} NewApprovalNear(w: World, n: nat, quoteId: nat, q: Quote, status: Status, m: nat)
    requires Ids(w) && n in w.deals.intents && n !in w.deals.latest
    ensures Near(w, NewApproval(w, n, quoteId, q, status), n, m)
  {
    NewApprovalCase(w, n, quoteId, q, status, m);
  }

  lemma {:induction false} DiscoverAllNear(w: World, n: nat, cs: seq<Candidate>, m: nat)
    requires Ids(w) && n in w.deals.intents
    ensures Near(w, DiscoverAll(w, n, cs).0, n, m)
  {
    DiscoverAllCase(w, n, cs, m);
    DiscoverAllSettings(w, n, cs);
    DiscoverAllIds(w, n, cs);
  }

  lemma {:induction false} DiscoverAllIds(w: World, n: nat, cs: seq<Candidate>)
    requires n in w.deals.intents
    ensures w.market.next <= DiscoverAll(w, n, cs).0.market.next
  {
    if cs != [] {
      DiscoverAllIds(w, n, cs[..|cs| - 1]);
    }
  }

  // ----- the operations

  lemma {:induction false} CreateNear(w: World, key: string, agent: string, user: string, items: seq<Wanted>,
                                      c: Constraints, m: nat)
    requires Ids(w)
    ensures Near(w, CreateIntent(w, key, agent, user, items, c).0, w.market.next, m)
  {
    CreateShape(w, key, agent, user, items, c);
    CreatedNear(w, key, Intent(user, S.Draft, items, c, None), m);
  }

  lemma {:induction false} CreatedNear(w: World, key: string, pi: Intent, m: nat)
    requires Ids(w)
    ensures Near(w, Created(w, key, pi), w.market.next, m)
  {
    Appended(w.record.audit, Event(w.market.next, None, Some(S.Draft)), m);
  }

  lemma {:induction false} CancelNear(w: World, agent: string, n: nat, m: nat)
    requires Ids(w)
    ensures Near(w, CancelIntent(w, agent, n).0, n, m)
  {
    if n in w.deals.intents {
      MovedNear(w, n, S.Cancelled, m);
    }
  }

  lemma {:induction false} DiscoverNear(w: World, agent: string, n: nat, cs: seq<Candidate>, m: nat)
    requires Ids(w)
    ensures Near(w, Discover(w, agent, n, cs).0, n, m)
  {
    if n in w.deals.intents {
      var t := Moved(w, n, S.Discovering);
      var (u, found) := DiscoverAll(t, n, cs);
      MovedNear(w, n, S.Discovering, m);
      DiscoverAllNear(t, n, cs, m);
      MovedNear(u, n, if found then S.Quoted else S.Failed, m);
    }
  }

  lemma {:induction false} PutIntentNear(w: World, n: nat, pi: Intent, m: nat)
    requires Ids(w) && n in w.deals.intents
    ensures Near(w, PutIntent(w, n, pi), n, m)
  {
  }

  lemma {:induction false} SelectNear(w: World, agent: string, n: nat, q: nat, m: nat)
    requires Ids(w)
    ensures Near(w, SelectQuote(w, agent, n, q).0, n, m)
  {
    if n in w.deals.intents {
      PutIntentNear(w, n, w.deals.intents[n].(selected := Some(q)), m);
    }
  }

  lemma {:induction false} DecideNear(w: World, n: nat, quoteId: nat, q: Quote, d: P.Decision, m: nat)
    requires Ids(w) && n in w.deals.intents && n !in w.deals.latest
    ensures Near(w, Decided(w, n, quoteId, q, d), n, m)
  {
    match d
    case Deny => MovedNear(w, n, S.PolicyRejected, m);
    case RequireApproval =>
      NewApprovalNear(w, n, quoteId, q, Pending, m);
      MovedNear(NewApproval(w, n, quoteId, q, Pending), n, S.ApprovalRequired, m);
    case Allow =>
      NewApprovalNear(w, n, quoteId, q, Approved, m);
      MovedNear(NewApproval(w, n, quoteId, q, Approved), n, S.Approved, m);
  }

  lemma {:induction false} ConcludeNear(w: World, n: nat, quoteId: nat, q: Quote, d: Result<P.PolicyDecision, Error>,
                                        m: nat)
    requires Ids(w) && n in w.deals.intents && n !in w.deals.latest
    ensures Near(w, Concluded(w, n, quoteId, q, d), n, m)
  {
    if d.Ok? {
      NotedCase(w, n, m);
      DecideNear(Noted(w, n), n, quoteId, q, d.value.decision, m);
    }
  }

  lemma {:induction false} CheckingNear(w: World, n: nat, m: nat)
    requires Ids(w) && Good(w, n) && n in w.deals.intents && S.CanTransition(w.deals.intents[n].status, S.PolicyCheck)
    ensures Near(w, Moved(w, n, S.PolicyCheck), n, m) && n !in w.deals.latest
  {
    MovedNear(w, n, S.PolicyCheck, m);
    assert CaseOf(w, n).aid == None;
  }

  lemma {:induction false} EvaluateNear(w: World, agent: string, n: nat, m: nat)
    requires Ids(w) && Good(w, n)
    ensures Near(w, EvaluateAndTransition(w, agent, n).0, n, m)
  {
    var pi := Owned(w, agent, n, ShoppingExecute);
    if pi.Ok? && pi.value.selected.Some? && pi.value.selected.value in w.market.quotes
       && S.CanTransition(pi.value.status, S.PolicyCheck) {
      var q := w.market.quotes[pi.value.selected.value];
      CheckingNear(w, n, m);
      ConcludeNear(Moved(w, n, S.PolicyCheck), n, pi.value.selected.value, q, Evaluate(w, pi.value, q), m);
    }
  }

  lemma {:induction false} MoveParentNear(w: World, n: nat, to: S.State, m: nat)
    requires Ids(w)
    ensures Near(w, MoveParent(w, n, to).0, n, m)
  {
    if n in w.deals.intents {
      MovedNear(w, n, to, m);
    }
  }

  /** The intent an approval belongs to. */
  function ParentOf(w: World, a: nat): nat {
    if a in w.deals.approvals then w.deals.approvals[a].parent else 0
  }

  lemma {:induction false} ApproveNear(w: World, user: string, a: nat, m: nat)
    requires Ids(w)
    ensures Near(w, Approve(w, user, a).0, ParentOf(w, a), m)
  {
    if a in w.deals.approvals {
      var row := w.deals.approvals[a];
      var t := Terms(row.amount, ItemsPutForward(w, a), true);
      TermsNear(w, a, row.(status := Approved), t, m);
      MoveParentNear(PutTerms(WithStatus(w, a, Approved), a, t), row.parent, S.Approved, m);
    }
  }

  lemma {:induction false} RejectNear(w: World, user: string, a: nat, m: nat)
    requires Ids(w)
    ensures Near(w, Reject(w, user, a).0, ParentOf(w, a), m)
  {
    if a in w.deals.approvals {
      var row := w.deals.approvals[a];
      RowNear(w, a, row.(status := Rejected), m);
      MoveParentNear(WithStatus(w, a, Rejected), row.parent, S.Cancelled, m);
    }
  }

  lemma {:induction false} RebindNear(w: World, a: nat, q: Quote, m: nat)
    requires Ids(w) && a in w.deals.approvals
    ensures var row := w.deals.approvals[a];
            Near(w, MoveParent(PutTerms(PutApproval(w, a, Rebound(row, q)), a, Terms(q.finalPayable, q.items, true)),
                               row.parent, S.Approved).0, row.parent, m)
  {
    var row := w.deals.approvals[a];
    var t := Terms(q.finalPayable, q.items, true);
    TermsNear(w, a, Rebound(row, q), t, m);
    MoveParentNear(PutTerms(PutApproval(w, a, Rebound(row, q)), a, t), row.parent, S.Approved, m);
  }

  lemma {:induction false} ReapproveNear(w: World, user: string, a: nat, remote: Result<Quote, Error>, m: nat)
    requires Ids(w)
    ensures Near(w, Reapprove(w, user, a, remote).0, ParentOf(w, a), m)
  {
    if a in w.deals.approvals {
      var q := RefreshQuote(w, w.deals.approvals[a].quote, remote);
      if q.Ok? {
        RebindNear(w, a, q.value, m);
      }
    }
  }

  lemma {:induction false} FlagNear(w: World, n: nat, a: nat, m: nat)
    requires Ids(w) && a in w.deals.approvals && n == w.deals.approvals[a].parent
    ensures Near(w, FlagReapproval(w, n, a), n, m)
  {
    RowNear(w, a, w.deals.approvals[a].(status := ReapprovalRequired), m);
    MovedNear(WithStatus(w, a, ReapprovalRequired), n, S.ReapprovalRequired, m);
  }

  lemma {:induction false} RecordNear(w: World, n: nat, o: Order, to: S.State, m: nat)
    requires Ids(w) && n in w.deals.intents && o.intent == n
    ensures var t := Moved(Recorded(w, o), n, to);
            Beside(w, t, n, m) && t.record.orders == w.record.orders + [o] && t.record.outcomes == w.record.outcomes
  {
    RecordedNear(w, o, m);
    MovedNear(Recorded(w, o), n, to, m);
  }

  lemma {:induction false} SettleNear(w: World, n: nat, a: nat, outcome: M.Outcome, placedAt: Instant, m: nat)
    requires Ids(w) && n in w.deals.intents
    ensures var (t, r) := Settle(w, n, a, outcome, placedAt);
            Beside(w, t, n, m) && Placing(w, t, r)
  {
    match outcome
    case Succeeded(None) =>
    case Succeeded(Some(mo)) => RecordNear(w, n, NewOrder(w, n, a, mo, placedAt), S.Succeeded, m);
    case AuthenticationRequired => MovedNear(w, n, S.AuthenticationRequired, m);
    case MerchantIntervention => MovedNear(w, n, S.MerchantInterventionRequired, m);
    case UserIntervention => MovedNear(w, n, S.UserInterventionRequired, m);
    case Refused => MovedNear(w, n, S.Failed, m);
  }

  lemma {:induction false} FinishNear(w: World, n: nat, a: nat, result: Result<M.Outcome, Error>, placedAt: Instant,
                                      m: nat)
    requires Ids(w) && n in w.deals.intents
    ensures var (t, r) := Finish(w, n, a, result, placedAt);
            Beside(w, t, n, m) && Placing(w, t, r)
  {
    if result.Err? {
      MovedNear(w, n, S.Failed, m);
    } else {
      SettleNear(w, n, a, result.value, placedAt, m);
    }
  }

  lemma {:induction false} CheckoutNear(w: World, n: nat, a: nat, q: Quote, shipping: bool, e: ExecuteEnv, m: nat)
    requires Ids(w) && n in w.deals.intents
    ensures var (t, r) := Checkout(w, n, a, q, shipping, e);
            Beside(w, t, n, m) && Placing(w, t, r)
  {
    var t := Moved(w, n, S.Executing);
    MovedNear(w, n, S.Executing, m);
    MovedNear(t, n, S.Failed, m);
    var call := CallMerchant(w, q, shipping, e);
    var d := Dealt(t, call.0);
    assert Near(w, d, n, m);
    FinishNear(d, n, a, call.1, PlacedAt(w, q, e), m);
  }

  lemma {:induction false} PursueNear(w: World, n: nat, a: nat, q: Quote, d: P.Decision, e: ExecuteEnv, m: nat)
    requires Ids(w) && a in w.deals.approvals && n == w.deals.approvals[a].parent
    ensures var (t, r) := Pursue(w, n, a, q, d, e);
            Beside(w, t, n, m) && Placing(w, t, r)
  {
    match d
    case Deny =>
      MovedNear(w, n, S.Executing, m);
      MovedNear(Moved(w, n, S.Executing), n, S.Failed, m);
    case RequireApproval => FlagNear(w, n, a, m);
    case Allow =>
      if e.shipping.Ok? {
        RowNear(w, a, w.deals.approvals[a].(status := Consumed), m);
        CheckoutNear(WithStatus(w, a, Consumed), n, a, q, e.shipping.value, e, m);
      }
  }

  lemma {:induction false} AuthorizeNear(w: World, n: nat, a: nat, q: Quote, e: ExecuteEnv, m: nat)
    requires Ids(w) && a in w.deals.approvals && n == w.deals.approvals[a].parent
    ensures var (t, r) := Authorize(w, n, a, q, e);
            Beside(w, t, n, m) && Placing(w, t, r)
  {
    var row := w.deals.approvals[a];
    if !QuoteMatches(w, row, q) {
      FlagNear(w, n, a, m);
    } else {
      var d := Recheck(w, w.deals.intents[n].user, row.alias, q);
      if d.Ok? {
        PursueNear(w, n, a, q, d.value.decision, e, m);
      }
    }
  }

  lemma {:induction false} ExecuteOnceNear(w: World, agent: string, n: nat, e: ExecuteEnv, m: nat)
    requires Ids(w)
    ensures var (t, r) := ExecuteOnce(w, agent, n, e);
            Beside(w, t, n, m) && Placing(w, t, r)
  {
    var a := Ready(w, agent, n);
    if a.Ok? {
      var q := RefreshQuote(w, w.deals.approvals[a.value].quote, e.quote);
      if q.Ok? {
        AuthorizeNear(w, n, a.value, q.value, e, m);
      }
    }
  }

  lemma {:induction false} ExecuteNear(w: World, key: string, agent: string, n: nat, e: ExecuteEnv, m: nat)
    requires Ids(w)
    ensures Beside(w, Execute(w, key, agent, n, e).0, n, m)
  {
    ExecuteOnceNear(w, agent, n, e, m);
  }

  lemma {:induction false} AuthenticationNear(w: World, agent: string, n: nat, mo: nat, success: bool,
                                              order: Result<M.MerchantOrder, Error>, placedAt: Instant, m: nat)
    requires Ids(w)
    ensures var (t, r) := CompleteAuthentication(w, agent, n, mo, success, order, placedAt);
            Beside(w, t, n, m) && Placing(w, t, r)
  {
    if n in w.deals.latest {
      ResumeNear(w, n, w.deals.latest[n], mo, success, order, placedAt, m);
    }
  }

  lemma {:induction false} ConfirmNear(w: World, n: nat, a: nat, answer: Result<M.MerchantOrder, Error>,
                                       placedAt: Instant, m: nat)
    requires Ids(w) && n in w.deals.intents
    ensures var (t, r) := Confirm(w, n, a, answer, placedAt);
            Beside(w, t, n, m) && Placing(w, t, r)
  {
    if answer.Err? {
      MovedNear(w, n, S.Failed, m);
    } else {
      RecordNear(w, n, NewOrder(w, n, a, answer.value, placedAt), S.Succeeded, m);
    }
  }

  lemma {:induction false} ResumeNear(w: World, n: nat, a: nat, mo: nat, success: bool,
                                      order: Result<M.MerchantOrder, Error>, placedAt: Instant, m: nat)
    requires Ids(w) && n in w.deals.intents && a in w.deals.approvals
    ensures var (t, r) := Resume(w, n, a, mo, success, order, placedAt);
            Beside(w, t, n, m) && Placing(w, t, r)
  {
    if !success {
      MovedNear(w, n, S.Failed, m);
    } else if w.deals.approvals[a].merchant == w.market.shop.name {
      ConfirmNear(w, n, a, M.GetOrderFrom(w.market.shop, mo), placedAt, m);
    } else {
      ConfirmNear(w, n, a, order, placedAt, m);
    }
  }

  /** Some order's status became CANCELLED, and nothing else about any order changed. */
  ghost predicate OneCancelled(before: seq<Order>, after: seq<Order>) {
    exists k: nat | k < |before| :: after == before[k := before[k].(status := M.Cancelled)]
  }

  lemma {:induction false} StatusNear(w: World, n: nat, k: nat, shop: M.Shop, m: nat)
    requires Ids(w) && k < |w.record.orders| && w.record.orders[k].intent == n
    ensures var t := WithCancelled(w, n, k, shop);
            Beside(w, t, n, m) && t.record.outcomes == w.record.outcomes
            && OneCancelled(w.record.orders, t.record.orders)
  {
    OneChanged(w.record.orders, k, w.record.orders[k].(status := M.Cancelled), m);
    Appended(w.record.audit, Event(n, None, None), m);
  }

  lemma {:induction false} CancelOrderNear(w: World, agent: string, n: nat, remote: Option<Error>, m: nat)
    requires Ids(w)
    ensures var t := CancelOrder(w, agent, n, remote).0;
            && Beside(w, t, n, m) && t.record.outcomes == w.record.outcomes
            && (t.record.orders == w.record.orders || OneCancelled(w.record.orders, t.record.orders))
  {
    var k := OrderIndex(w.record.orders, n);
    CancelShape(w, agent, n, remote);
    if CancelOrder(w, agent, n, remote).0 != w {
      StatusNear(w, n, k.value, AskToCancel(w, w.record.orders[k.value], remote).value, m);
    }
  }

  /** A cancellation changes nothing, or one order's status. */
  lemma {:induction false} CancelShape(w: World, agent: string, n: nat, remote: Option<Error>)
    ensures var t := CancelOrder(w, agent, n, remote).0;
            var k := OrderIndex(w.record.orders, n);
            t == w || (k.Some? && AskToCancel(w, w.record.orders[k.value], remote).Ok?
                       && t == WithCancelled(w, n, k.value, AskToCancel(w, w.record.orders[k.value], remote).value))
  {
  }
}
