/** Where no price and no quantity is negative, no order's total is, and the daily cap holds over every run. */
module PurchasePrices {
  import opened Results
  import opened Approvals
  import opened Quotes
  import opened PurchaseFlow
  import opened PurchaseInvariants
  import opened PurchaseSafety
  import opened PurchaseSpending
  import opened PurchaseCaps
  import S = PurchaseStates
  import P = Policy
  import M = MockMerchant

  // ----- no negative prices or quantities

  predicate PricesFit(catalog: map<string, int>) {
    forall id | id in catalog :: catalog[id] >= 0
  }

  predicate LinesFit(items: seq<M.CartItem>) {
    forall i | 0 <= i < |items| :: items[i].quantity >= 0
  }

  predicate CartsFit(carts: map<nat, M.Cart>) {
    forall c | c in carts :: LinesFit(carts[c].items)
  }

  predicate ShopFits(shop: M.Shop) {
    PricesFit(shop.catalog) && CartsFit(shop.carts)
  }

  predicate WantsFit(items: seq<Wanted>) {
    forall i | 0 <= i < |items| :: items[i].quantity >= 0
  }

  predicate IntentsFit(intents: map<nat, Intent>) {
    forall n | n in intents :: WantsFit(intents[n].items)
  }

  predicate Fits(w: World) {
    ShopFits(w.market.shop) && IntentsFit(w.deals.intents)
  }

  /** What is asked for, and what the shop changes to, is not negative. */
  predicate OpFits(op: Op) {
    && (op.Asks? && op.request.Creating? ==> WantsFit(op.request.items))
    && (op.Happens? && op.change.ShopChanges? ==> PricesFit(op.change.catalog) && CartsFit(op.change.carts))
  }

  // ----- a quote's total

  lemma {:induction false} LinesNonNegative(catalog: map<string, int>, items: seq<M.CartItem>)
    requires PricesFit(catalog) && LinesFit(items)
    ensures M.Subtotal(M.QuoteItems(catalog, items)) >= 0
  {
    if items != [] {
      var init, last := items[..|items| - 1], items[|items| - 1];
      LinesNonNegative(catalog, init);
      if last.id in catalog {
        var before := M.QuoteItems(catalog, init);
        var line := Item(last.id, last.quantity, catalog[last.id]);
        assert (before + [line])[..|before|] == before;
        assert line.unitPrice * line.quantity >= 0;
      }
    }
  }

  /** The subtotal, less a tenth of it at most, plus the fees. */
  lemma {:induction false} QuoteNonNegative(shop: M.Shop, cart: nat)
    requires ShopFits(shop) && M.QuoteOf(shop, cart).Ok?
    ensures Recomputed(M.QuoteOf(shop, cart).value.(cart := cart)).finalPayable.minorUnits >= 0
  {
    LinesNonNegative(shop.catalog, shop.carts[cart].items);
  }

  lemma {:induction false} PlacedNonNegative(w: World, n: nat, o: Order, remote: Result<Quote, Error>)
    requires ShopFits(w.market.shop) && w.env.cfg.remotes == {} && WellPlaced(w, n, o, remote)
    ensures o.total.minorUnits >= 0
  {
    var q := w.market.quotes[w.deals.approvals[w.deals.latest[n]].quote];
    QuoteNonNegative(w.market.shop, q.cart);
  }

  // ----- what the operations do to the shop and to what intents ask for

  lemma {:induction false} AddFits(items: seq<M.CartItem>, id: string, quantity: int)
    requires LinesFit(items) && quantity >= 0
    ensures LinesFit(M.AddItem(items, id, quantity))
  {
    if items != [] && items[0].id != id {
      AddFits(items[1..], id, quantity);
    }
  }

  lemma {:induction false} FillFits(shop: M.Shop, cart: nat, items: seq<Wanted>, matches: seq<Option<string>>, k: nat)
    requires ShopFits(shop) && WantsFit(items) && k <= |items|
    ensures ShopFits(Fill(shop, cart, items, matches, k).shop)
  {
    if k > 0 {
      FillFits(shop, cart, items, matches, k - 1);
      var f := Fill(shop, cart, items, matches, k - 1).shop;
      var best := MatchOf(matches, k - 1);
      if best.Some? && cart in f.carts {
        AddFits(f.carts[cart].items, best.value, items[k - 1].quantity);
      }
    }
  }

  lemma {:induction false} DiscoverShopFits(shop: M.Shop, cart: nat, items: seq<Wanted>, matches: seq<Option<string>>)
    requires ShopFits(shop) && WantsFit(items)
    ensures ShopFits(DiscoverShop(shop, cart, items, matches).0)
  {
    FillFits(shop.(carts := shop.carts[cart := M.Cart([], false)]), cart, items, matches, |items|);
  }

  lemma {:induction false} DiscoverAllFits(w: World, n: nat, cs: seq<Candidate>)
    requires n in w.deals.intents && Fits(w)
    ensures Fits(DiscoverAll(w, n, cs).0)
  {
    if cs != [] {
      var t := DiscoverAll(w, n, cs[..|cs| - 1]).0;
      DiscoverAllFits(w, n, cs[..|cs| - 1]);
      if cs[|cs| - 1].FromShop? {
        DiscoverShopFits(t.market.shop, t.market.next, t.deals.intents[n].items, cs[|cs| - 1].matches);
      }
    }
  }

  lemma {:induction false} MovedFits(w: World, n: nat, to: S.State)
    requires n in w.deals.intents && Fits(w)
    ensures Fits(Moved(w, n, to))
  {
  }

  lemma {:induction false} ConcludedFits(w: World, n: nat, quoteId: nat, q: Quote, d: Result<P.PolicyDecision, Error>)
    requires n in w.deals.intents && Fits(w)
    ensures Fits(Concluded(w, n, quoteId, q, d))
  {
    if d.Ok? {
      var t := Noted(w, n);
      MovedFits(t, n, S.PolicyRejected);
      MovedFits(NewApproval(t, n, quoteId, q, Pending), n, S.ApprovalRequired);
      MovedFits(NewApproval(t, n, quoteId, q, Approved), n, S.Approved);
    }
  }

  lemma {:induction false} EvaluateFits(w: World, agent: string, n: nat)
    requires Fits(w)
    ensures Fits(EvaluateAndTransition(w, agent, n).0)
  {
    var pi := Owned(w, agent, n, ShoppingExecute);
    if pi.Ok? && pi.value.selected.Some? && pi.value.selected.value in w.market.quotes {
      var q := w.market.quotes[pi.value.selected.value];
      MovedFits(w, n, S.PolicyCheck);
      ConcludedFits(Moved(w, n, S.PolicyCheck), n, pi.value.selected.value, q, Evaluate(w, pi.value, q));
    }
  }

  lemma {:induction false} ShoppedFits(w: World, agent: string, r: Request)
    requires IsShopping(r) && Fits(w) && OpFits(Asks(agent, r))
    ensures Fits(Shopped(w, agent, r))
  {
    match r
    case Creating(key, user, items, c) =>
    case Discovering(n, cs) =>
      if n in w.deals.intents {
        MovedFits(w, n, S.Discovering);
        DiscoverAllFits(Moved(w, n, S.Discovering), n, cs);
        var (t, found) := DiscoverAll(Moved(w, n, S.Discovering), n, cs);
        MovedFits(t, n, if found then S.Quoted else S.Failed);
      }
    case Selecting(n, q) =>
    case Evaluating(n) => EvaluateFits(w, agent, n);
  }

  lemma {:induction false} FinishFits(w: World, n: nat, a: nat, result: Result<M.Outcome, Error>, placedAt: Instant)
    requires n in w.deals.intents && Fits(w)
    ensures Fits(Finish(w, n, a, result, placedAt).0)
  {
  }

  lemma {:induction false} CheckoutFits(w: World, n: nat, a: nat, q: Quote, shipping: bool, e: ExecuteEnv)
    requires n in w.deals.intents && Fits(w)
    ensures Fits(Checkout(w, n, a, q, shipping, e).0)
  {
    var t := Moved(w, n, S.Executing);
    MovedFits(w, n, S.Executing);
    MovedFits(t, n, S.Failed);
    var call := CallMerchant(w, q, shipping, e);
    assert ShopFits(call.0);
    FinishFits(Dealt(t, call.0), n, a, call.1, PlacedAt(w, q, e));
  }

  lemma {:induction false} PursueFits(w: World, n: nat, a: nat, q: Quote, d: P.Decision, e: ExecuteEnv)
    requires n in w.deals.intents && a in w.deals.approvals && Fits(w)
    ensures Fits(Pursue(w, n, a, q, d, e).0)
  {
    MovedFits(w, n, S.Executing);
    MovedFits(Moved(w, n, S.Executing), n, S.Failed);
    MovedFits(WithStatus(w, a, ReapprovalRequired), n, S.ReapprovalRequired);
    if e.shipping.Ok? {
      CheckoutFits(WithStatus(w, a, Consumed), n, a, q, e.shipping.value, e);
    }
  }

  lemma {:induction false} AuthorizeFits(w: World, n: nat, a: nat, q: Quote, e: ExecuteEnv)
    requires n in w.deals.intents && a in w.deals.approvals && Fits(w)
    ensures Fits(Authorize(w, n, a, q, e).0)
  {
    MovedFits(WithStatus(w, a, ReapprovalRequired), n, S.ReapprovalRequired);
    var d := Recheck(w, w.deals.intents[n].user, w.deals.approvals[a].alias, q);
    if d.Ok? {
      PursueFits(w, n, a, q, d.value.decision, e);
    }
  }

  lemma {:induction false} ExecuteFits(w: World, key: string, agent: string, n: nat, e: ExecuteEnv)
    requires Fits(w)
    ensures Fits(Execute(w, key, agent, n, e).0)
  {
    var a := Ready(w, agent, n);
    if a.Ok? {
      var q := RefreshQuote(w, w.deals.approvals[a.value].quote, e.quote);
      if q.Ok? {
        AuthorizeFits(w, n, a.value, q.value, e);
      }
    }
  }

  lemma {:induction false} OrderedFits(w: World, agent: string, r: Request)
    requires !IsShopping(r) && Fits(w)
    ensures Fits(Ordered(w, agent, r))
  {
    match r
    case Executing(key, n, e) => ExecuteFits(w, key, agent, n, e);
    case Authenticating(n, mo, ok, order, at) =>
    case Cancelling(n) =>
    case CancellingOrder(n, answer) =>
  }

  lemma {:induction false} StepFits(w: World, op: Op)
    requires Fits(w) && OpFits(op)
    ensures Fits(Step(w, op))
  {
    match op
    case Asks(agent, r) =>
      if IsShopping(r) {
        ShoppedFits(w, agent, r);
      } else {
        OrderedFits(w, agent, r);
      }
    case Decides(user, a, d) => DecidedFits(w, user, a, d);
    case Happens(c) =>
  }

  lemma {:induction false} DecidedFits(w: World, user: string, a: nat, d: PurchaseFlow.Decision)
    requires Fits(w)
    ensures Fits(DecidedBy(w, user, a, d))
  {
  }

  // ----- whole runs

  predicate NonNegative(orders: seq<Order>) {
    forall k | 0 <= k < |orders| :: orders[k].total.minorUnits >= 0
  }

  lemma {:induction false} StepNonNegative(w: World, op: Op)
    requires Inv(w) && w.env.cfg.remotes == {} && Fits(w) && NonNegative(w.record.orders)
    ensures NonNegative(Step(w, op).record.orders)
  {
    StepEvolves(w, op);
    NonNegativeAfter(w, op, Step(w, op));
  }

  lemma {:induction false} NonNegativeAfter(w: World, op: Op, t: World)
    requires Evolves(w, op, t) && w.env.cfg.remotes == {} && ShopFits(w.market.shop) && NonNegative(w.record.orders)
    ensures NonNegative(t.record.orders)
  {
    if TakenOff(w, op).None? && t.record.orders != w.record.orders {
      var n, o, remote :| WellPlaced(w, n, o, remote) && t.record.orders == w.record.orders + [o];
      PlacedNonNegative(w, n, o, remote);
    }
  }

  lemma {:induction false} RunNonNegative(w: World, ops: seq<Op>)
    requires Fresh(w) && w.env.cfg.remotes == {} && ShopFits(w.market.shop)
    requires forall j | 0 <= j < |ops| :: OpFits(ops[j])
    ensures Fits(Run(w, ops)) && NonNegative(Run(w, ops).record.orders)
  {
    if ops != [] {
      var init := ops[..|ops| - 1];
      assert forall j | 0 <= j < |init| :: init[j] == ops[j];
      RunNonNegative(w, init);
      Reachable(w, init);
      StepFits(Run(w, init), ops[|ops| - 1]);
      StepNonNegative(Run(w, init), ops[|ops| - 1]);
    }
  }

  /** Against the mock merchant, with prices and quantities that are not negative, a user whose rules always cap the
      day at `cap` never has more than `cap` of one currency on the day's ledger. */
  lemma {:induction false} DailyCapHolds(w: World, ops: seq<Op>, user: string, currency: string, cap: int)
    requires Fresh(w) && w.env.cfg.remotes == {} && ShopFits(w.market.shop) && Capped(RulesFor(w, user), cap)
    requires forall j | 0 <= j < |ops| :: KeepsCap(ops[j], user, cap) && OpFits(ops[j])
    ensures SpendToday(Run(w, ops), user, currency) <= cap
  {
    CapAt(w, ops, |ops|, user, currency, cap);
    assert ops[..|ops|] == ops;
  }

  lemma {:induction false} CapAt(w: World, ops: seq<Op>, k: nat, user: string, currency: string, cap: int)
    requires Fresh(w) && w.env.cfg.remotes == {} && ShopFits(w.market.shop) && Capped(RulesFor(w, user), cap)
    requires forall j | 0 <= j < |ops| :: KeepsCap(ops[j], user, cap) && OpFits(ops[j])
    requires k <= |ops|
    ensures Throughout(w, ops, k, user, currency, cap)
  {
    CapHoldsUpTo(w, ops, k, user, currency, cap);
    if k > 0 {
      CapAt(w, ops, k - 1, user, currency, cap);
      CapHoldsUpTo(w, ops, k - 1, user, currency, cap);
      RunNonNegative(w, ops[..k - 1]);
      assert SparesAt(w, ops, k - 1, user, currency, cap);
    }
  }
}
