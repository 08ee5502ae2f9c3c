/** Execute, CompleteAuthentication and CancelOrder keep the case of their intent good. */
module PurchaseExecution {
  import opened AuditTrails
  import opened Results
  import opened Approvals
  import opened Quotes
  import opened PurchaseFlow
  import opened PurchaseInvariants
  import S = PurchaseStates
  import P = Policy
  import M = MockMerchant

  // ----- the mock merchant prices a cart the same way twice

  /** A quote the mock merchant stands by: quoting its cart now gives the same items and total. */
  ghost predicate StoodBy(shop: M.Shop, q: Quote) {
    && q.merchant == shop.name
    && M.QuoteOf(shop, q.cart).Ok?
    && M.QuoteOf(shop, q.cart).value.items == q.items
    && M.QuoteOf(shop, q.cart).value.finalPayable == q.finalPayable
  }

  lemma {:induction false} RecomputedAgain(q: Quote, cart: nat)
    ensures Recomputed(Recomputed(q).(cart := cart)) == Recomputed(q).(cart := cart)
  {
  }

  lemma {:induction false} RefreshIsStoodBy(w: World, q: nat, remote: Result<Quote, Error>)
    requires w.env.cfg.remotes == {} && RefreshQuote(w, q, remote).Ok?
    ensures StoodBy(w.market.shop, RefreshQuote(w, q, remote).value)
  {
    var shop, cart := w.market.shop, w.market.quotes[q].cart;
    var c := shop.carts[cart];
    RecomputedAgain(M.DraftQuote(shop, cart, M.QuoteItems(shop.catalog, c.items), c.coupon), cart);
  }

  /** Its checkout then charges exactly that quote, or asks for an address. */
  lemma {:induction false} CheckoutChargesQuote(shop: M.Shop, q: Quote, shipping: bool, id: nat)
    requires StoodBy(shop, q)
    ensures var r := M.Checkout(shop, q.cart, shipping, id).1;
            r == if shipping
                   then Ok(M.Succeeded(Some(M.MerchantOrder(shop.name, id, q.items, q.finalPayable, M.Placed))))
                 else Ok(M.UserIntervention)
  {
  }

  // ----- the claim and what follows it

  lemma {:induction false} FlagKeeps(w: World, n: nat, a: nat)
    requires Ids(w) && Good(w, n) && n in w.deals.latest && w.deals.latest[n] == a
    requires w.deals.intents[n].status == S.Approved
    ensures Good(FlagReapproval(w, n, a), n)
  {
    RowCase(w, a, w.deals.approvals[a].(status := ReapprovalRequired), n);
    MovedCase(WithStatus(w, a, ReapprovalRequired), n, S.ReapprovalRequired, n);
  }

  lemma {:induction false} DeniedOk(cfg: Config, n: nat, c: Case)
    requires CaseOk(cfg, n, c) && c.intent.Some? && c.intent.value.status == S.Approved
    ensures CaseOk(cfg, n, CaseMoved(CaseMoved(c, n, S.Executing), n, S.Failed))
  {
    CaseMovedOk(cfg, n, c, S.Executing);
    CaseMovedOk(cfg, n, CaseMoved(c, n, S.Executing), S.Failed);
  }

  lemma {:induction false} DenyKeeps(w: World, n: nat)
    requires Good(w, n) && n in w.deals.intents && w.deals.intents[n].status == S.Approved
    ensures Good(Moved(Moved(w, n, S.Executing), n, S.Failed), n)
  {
    DeniedOk(w.env.cfg, n, CaseOf(w, n));
    MovedOwn(w, n, S.Executing);
    MovedOwn(Moved(w, n, S.Executing), n, S.Failed);
  }

  /** An intent being executed on its consumed approval. */
  ghost predicate Claimed(w: World, n: nat, a: nat) {
    && n in w.deals.intents && n in w.deals.latest && w.deals.latest[n] == a && a in w.deals.approvals
    && w.deals.approvals[a].status == Consumed
    && Good(w, n)
  }

  lemma {:induction false} ClaimKeeps(w: World, n: nat, a: nat)
    requires Ids(w) && Good(w, n) && n in w.deals.latest && w.deals.latest[n] == a
    requires w.deals.intents[n].status == S.Approved
    ensures var t := Moved(WithStatus(w, a, Consumed), n, S.Executing);
            Claimed(t, n, a) && t.deals.intents[n].status == S.Executing && t.deals.terms == w.deals.terms
            && t.deals.approvals[a] == w.deals.approvals[a].(status := Consumed)
  {
    RowCase(w, a, w.deals.approvals[a].(status := Consumed), n);
    MovedCase(WithStatus(w, a, Consumed), n, S.Executing, n);
  }

  /** The order a merchant reports for a claimed approval, if it is the mock merchant's, honours its terms. */
  ghost predicate Acceptable(w: World, a: nat, o: M.MerchantOrder) {
    a in w.deals.approvals && a in w.deals.terms &&
    (w.env.cfg.remotes == {} ==>
       var row, t := w.deals.approvals[a], w.deals.terms[a];
       && Close(o.total, t.amount, w.env.cfg.tolerance)
       && o.merchant == row.merchant
       && CanonicalDigest(o.merchant, o.items, o.total.currency, row.alias)
          == CanonicalDigest(row.merchant, t.items, t.amount.currency, row.alias))
  }

  lemma {:induction false} RecordKeeps(w: World, n: nat, a: nat, mo: M.MerchantOrder, placedAt: Instant)
    requires Claimed(w, n, a) && Acceptable(w, a, mo) && S.CanTransition(w.deals.intents[n].status, S.Succeeded)
    ensures Good(Moved(Recorded(w, NewOrder(w, n, a, mo, placedAt)), n, S.Succeeded), n)
  {
    var o := NewOrder(w, n, a, mo, placedAt);
    RecordedCase(w, o, n);
    MovedCase(Recorded(w, o), n, S.Succeeded, n);
    assert CaseOf(w, n).orders == [];
    assert [] + [o] == [o];
  }

  lemma {:induction false} SettleKeeps(w: World, n: nat, a: nat, outcome: M.Outcome, placedAt: Instant)
    requires Claimed(w, n, a) && w.deals.intents[n].status == S.Executing
    requires outcome.AuthenticationRequired? ==> w.env.cfg.remotes != {}
    requires outcome.Succeeded? && outcome.order.Some? ==> Acceptable(w, a, outcome.order.value)
    ensures Good(Settle(w, n, a, outcome, placedAt).0, n)
  {
    match outcome
    case Succeeded(None) =>
    case Succeeded(Some(mo)) => RecordKeeps(w, n, a, mo, placedAt);
    case AuthenticationRequired => MoveKeeps(w, n, S.AuthenticationRequired);
    case MerchantIntervention => MoveKeeps(w, n, S.MerchantInterventionRequired);
    case UserIntervention => MoveKeeps(w, n, S.UserInterventionRequired);
    case Refused => MoveKeeps(w, n, S.Failed);
  }

  lemma {:induction false} FinishKeeps(w: World, n: nat, a: nat, result: Result<M.Outcome, Error>, placedAt: Instant)
    requires Claimed(w, n, a) && w.deals.intents[n].status == S.Executing
    requires result.Ok? && result.value.AuthenticationRequired? ==> w.env.cfg.remotes != {}
    requires result.Ok? && result.value.Succeeded? && result.value.order.Some? ==>
               Acceptable(w, a, result.value.order.value)
    ensures Good(Finish(w, n, a, result, placedAt).0, n)
  {
    if result.Err? {
      MoveKeeps(w, n, S.Failed);
    } else {
      SettleKeeps(w, n, a, result.value, placedAt);
    }
  }

  /** What the merchant may answer about a quote that matches the approval. */
  lemma {:induction false} CallIsAcceptable(w: World, a: nat, q: Quote, shipping: bool, e: ExecuteEnv)
    requires a in w.deals.approvals && a in w.deals.terms && Bound(w.deals.approvals[a], w.deals.terms[a])
    requires QuoteMatches(w, w.deals.approvals[a], q)
    requires w.env.cfg.remotes == {} ==> StoodBy(w.market.shop, q)
    ensures var r := CallMerchant(w, q, shipping, e).1;
            && (w.env.cfg.remotes == {} && r.Ok? ==> !r.value.AuthenticationRequired?)
            && (r.Ok? && r.value.Succeeded? && r.value.order.Some? ==> Acceptable(w, a, r.value.order.value))
  {
    if w.env.cfg.remotes == {} {
      CheckoutChargesQuote(w.market.shop, q, shipping, w.market.next);
    }
  }

  lemma {:induction false} CheckoutShape(w: World, n: nat, a: nat, q: Quote, shipping: bool, e: ExecuteEnv)
    requires n in w.deals.intents
    ensures var u := Checkout(w, n, a, q, shipping, e).0;
            var t := Moved(w, n, S.Executing);
            var call := CallMerchant(w, q, shipping, e);
            u == Moved(t, n, S.Failed) || u == Finish(Dealt(t, call.0), n, a, call.1, PlacedAt(w, q, e)).0
  {
  }

  lemma {:induction false} DealtClaimed(w: World, n: nat, a: nat, shop: M.Shop)
    requires Claimed(w, n, a)
    ensures Claimed(Dealt(w, shop), n, a)
  {
    assert CaseOf(Dealt(w, shop), n) == CaseOf(w, n);
  }

  lemma {:induction false} CheckoutKeeps(w: World, n: nat, a: nat, q: Quote, shipping: bool, e: ExecuteEnv)
    requires Ids(w) && Good(w, n) && n in w.deals.latest && w.deals.latest[n] == a
    requires w.deals.intents[n].status == S.Approved && QuoteMatches(w, w.deals.approvals[a], q)
    requires w.env.cfg.remotes == {} ==> StoodBy(w.market.shop, q)
    ensures Good(Checkout(WithStatus(w, a, Consumed), n, a, q, shipping, e).0, n)
  {
    var c := WithStatus(w, a, Consumed);
    var t := Moved(c, n, S.Executing);
    ClaimKeeps(w, n, a);
    MoveKeeps(t, n, S.Failed);
    CallIsAcceptable(c, a, q, shipping, e);
    var call := CallMerchant(c, q, shipping, e);
    DealtClaimed(t, n, a, call.0);
    FinishKeeps(Dealt(t, call.0), n, a, call.1, PlacedAt(c, q, e));
    CheckoutShape(c, n, a, q, shipping, e);
  }

  lemma {:induction false} PursueKeeps(w: World, n: nat, a: nat, q: Quote, d: P.Decision, e: ExecuteEnv)
    requires Ids(w) && Good(w, n) && n in w.deals.latest && w.deals.latest[n] == a
    requires w.deals.intents[n].status == S.Approved && QuoteMatches(w, w.deals.approvals[a], q)
    requires w.env.cfg.remotes == {} ==> StoodBy(w.market.shop, q)
    ensures Good(Pursue(w, n, a, q, d, e).0, n)
  {
    match d
    case Deny => DenyKeeps(w, n);
    case RequireApproval => FlagKeeps(w, n, a);
    case Allow =>
      if e.shipping.Ok? {
        CheckoutKeeps(w, n, a, q, e.shipping.value, e);
      }
  }

  lemma {:induction false} AuthorizeKeeps(w: World, n: nat, a: nat, q: Quote, e: ExecuteEnv)
    requires Ids(w) && Good(w, n) && n in w.deals.latest && w.deals.latest[n] == a
    requires w.deals.intents[n].status == S.Approved
    requires w.env.cfg.remotes == {} ==> StoodBy(w.market.shop, q)
    ensures Good(Authorize(w, n, a, q, e).0, n)
  {
    var row := w.deals.approvals[a];
    if !QuoteMatches(w, row, q) {
      FlagKeeps(w, n, a);
    } else {
      var d := Recheck(w, w.deals.intents[n].user, row.alias, q);
      if d.Ok? {
        PursueKeeps(w, n, a, q, d.value.decision, e);
      }
    }
  }

  lemma {:induction false} ExecuteOnceKeeps(w: World, agent: string, n: nat, e: ExecuteEnv)
    requires Ids(w) && Good(w, n)
    ensures Good(ExecuteOnce(w, agent, n, e).0, n)
  {
    var a := Ready(w, agent, n);
    if a.Ok? {
      var quote := w.deals.approvals[a.value].quote;
      var q := RefreshQuote(w, quote, e.quote);
      if q.Ok? {
        if w.env.cfg.remotes == {} {
          RefreshIsStoodBy(w, quote, e.quote);
        }
        AuthorizeKeeps(w, n, a.value, q.value, e);
      }
    }
  }

  predicate SameButOutcomes(w: World, t: World) {
    t == w.(record := w.record.(outcomes := t.record.outcomes))
  }

  lemma {:induction false} ExecuteShape(w: World, key: string, agent: string, n: nat, e: ExecuteEnv)
    ensures var t := Execute(w, key, agent, n, e).0;
            t == w || SameButOutcomes(ExecuteOnce(w, agent, n, e).0, t)
  {
  }

  lemma {:induction false} ExecuteKeeps(w: World, key: string, agent: string, n: nat, e: ExecuteEnv)
    requires Ids(w) && Good(w, n)
    ensures Good(Execute(w, key, agent, n, e).0, n)
  {
    ExecuteOnceKeeps(w, agent, n, e);
    ExecuteShape(w, key, agent, n, e);
    var t := Execute(w, key, agent, n, e).0;
    if t != w {
      RememberedGood(ExecuteOnce(w, agent, n, e).0, t, n);
    }
  }

  lemma {:induction false} RememberedGood(w: World, t: World, n: nat)
    requires Good(w, n) && SameButOutcomes(w, t)
    ensures Good(t, n)
  {
    assert CaseOf(t, n) == CaseOf(w, n);
  }

  lemma {:induction false} ConfirmKeeps(w: World, n: nat, a: nat, answer: Result<M.MerchantOrder, Error>,
                                        placedAt: Instant)
    requires Ids(w) && Good(w, n) && n in w.deals.latest && w.deals.latest[n] == a
    requires w.deals.intents[n].status == S.AuthenticationRequired
    ensures Good(Confirm(w, n, a, answer, placedAt).0, n)
  {
    if answer.Err? {
      MoveKeeps(w, n, S.Failed);
    } else {
      RecordKeeps(w, n, a, answer.value, placedAt);
    }
  }

  lemma {:induction false} ResumeKeeps(w: World, n: nat, a: nat, mo: nat, success: bool,
                                       order: Result<M.MerchantOrder, Error>, placedAt: Instant)
    requires Ids(w) && Good(w, n) && n in w.deals.latest && w.deals.latest[n] == a
    requires w.deals.intents[n].status == S.AuthenticationRequired
    ensures Good(Resume(w, n, a, mo, success, order, placedAt).0, n)
  {
    if !success {
      MoveKeeps(w, n, S.Failed);
    } else if w.deals.approvals[a].merchant == w.market.shop.name {
      ConfirmKeeps(w, n, a, M.GetOrderFrom(w.market.shop, mo), placedAt);
    } else {
      ConfirmKeeps(w, n, a, order, placedAt);
    }
  }

  lemma {:induction false} AuthenticationKeeps(w: World, agent: string, n: nat, mo: nat, success: bool,
                                               order: Result<M.MerchantOrder, Error>, placedAt: Instant)
    requires Ids(w) && Good(w, n)
    ensures Good(CompleteAuthentication(w, agent, n, mo, success, order, placedAt).0, n)
  {
    var pi := Owned(w, agent, n, ShoppingExecute);
    if pi.Ok? && pi.value.status == S.AuthenticationRequired && n in w.deals.latest {
      ResumeKeeps(w, n, w.deals.latest[n], mo, success, order, placedAt);
    }
  }

  // ----- cancelling an order changes its status only

  lemma {:induction false} OneChanged(orders: seq<Order>, k: nat, o: Order, m: nat)
    requires k < |orders| && o.intent == orders[k].intent
    ensures |OrdersOf(orders[k := o], m)| == |OrdersOf(orders, m)|
    ensures m != o.intent ==> OrdersOf(orders[k := o], m) == OrdersOf(orders, m)
    ensures m == o.intent ==> |OrdersOf(orders, m)| > 0
    ensures m == o.intent && |OrdersOf(orders, m)| == 1 ==>
              OrdersOf(orders, m) == [orders[k]] && OrdersOf(orders[k := o], m) == [o]
  {
    var last := |orders| - 1;
    if k == last {
      assert orders[k := o][..last] == orders[..last];
    } else {
      assert orders[k := o][..last] == orders[..last][k := o];
      OneChanged(orders[..last], k, o, m);
    }
  }

  lemma {:induction false} CancelledKeeps(w: World, n: nat, k: nat, shop: M.Shop)
    requires Good(w, n) && k < |w.record.orders| && w.record.orders[k].intent == n
    ensures Good(WithCancelled(w, n, k, shop), n)
  {
    OneChanged(w.record.orders, k, w.record.orders[k].(status := M.Cancelled), n);
    Appended(w.record.audit, Event(n, None, None), n);
  }

  lemma {:induction false} CancelOrderKeeps(w: World, agent: string, n: nat, remote: Option<Error>)
    requires Good(w, n)
    ensures Good(CancelOrder(w, agent, n, remote).0, n)
  {
    var k := OrderIndex(w.record.orders, n);
    if k.Some? {
      var shop := AskToCancel(w, w.record.orders[k.value], remote);
      if shop.Ok? {
        CancelledKeeps(w, n, k.value, shop.value);
      }
    }
  }
}
