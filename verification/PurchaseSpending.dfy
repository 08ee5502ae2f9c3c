/** What executions against the mock merchant place, how they move the ledger, and the monthly plan allowance over
    whole runs. */
module PurchaseSpending {
  import opened Results
  import opened Approvals
  import opened Quotes
  import opened PurchaseFlow
  import opened PurchaseInvariants
  import opened PurchaseExecution
  import opened PurchaseFrames
  import opened PurchaseSafety
  import S = PurchaseStates
  import P = Policy
  import B = Billing
  import M = MockMerchant

  // ----- what an execution places

  /** An order placed now, for exactly what a quote says. */
  ghost predicate FromQuote(w: World, n: nat, o: Order, q: Quote) {
    && n in w.deals.intents && o.intent == n && o.user == w.deals.intents[n].user
    && o.total == q.finalPayable && o.items == q.items && o.merchant == q.merchant
    && o.placedAt == w.env.now && o.status == M.Placed
  }

  function OrderIn(r: Result<ExecuteOutcome, Error>): Option<Order> {
    if r.Ok? then r.value.order else None
  }

  lemma {:induction false} FinishPlaces(w: World, n: nat, a: nat, result: Result<M.Outcome, Error>, at: Instant)
    requires n in w.deals.intents
    ensures var o := OrderIn(Finish(w, n, a, result, at).1);
            o.Some? ==> result.Ok? && result.value.Succeeded? && result.value.order.Some?
                        && o.value == NewOrder(w, n, a, result.value.order.value, at)
  {
  }

  lemma {:induction false} CheckoutPlaces(w: World, n: nat, a: nat, q: Quote, shipping: bool, e: ExecuteEnv)
    requires n in w.deals.intents && StoodBy(w.market.shop, q)
    ensures var o := OrderIn(Checkout(w, n, a, q, shipping, e).1); o.Some? ==> FromQuote(w, n, o.value, q)
  {
    var call := CallMerchant(w, q, shipping, e);
    CheckoutChargesQuote(w.market.shop, q, shipping, w.market.next);
    FinishPlaces(Dealt(Moved(w, n, S.Executing), call.0), n, a, call.1, PlacedAt(w, q, e));
  }

  lemma {:induction false} PursuePlaces(w: World, n: nat, a: nat, q: Quote, d: P.Decision, e: ExecuteEnv)
    requires n in w.deals.intents && a in w.deals.approvals && StoodBy(w.market.shop, q)
    ensures var o := OrderIn(Pursue(w, n, a, q, d, e).1); o.Some? ==> FromQuote(w, n, o.value, q) && d == P.Allow
  {
    if d == P.Allow && e.shipping.Ok? {
      CheckoutPlaces(WithStatus(w, a, Consumed), n, a, q, e.shipping.value, e);
    }
  }

  /** A placed order charges the refreshed quote, which the payment-time check allowed. */
  lemma {:induction false} AuthorizePlaces(w: World, n: nat, a: nat, q: Quote, e: ExecuteEnv)
    requires n in w.deals.intents && a in w.deals.approvals && StoodBy(w.market.shop, q)
    ensures var o := OrderIn(Authorize(w, n, a, q, e).1);
            o.Some? ==>
              var d := Recheck(w, w.deals.intents[n].user, w.deals.approvals[a].alias, q);
              FromQuote(w, n, o.value, q) && d.Ok? && d.value.decision == P.Allow
  {
    var d := Recheck(w, w.deals.intents[n].user, w.deals.approvals[a].alias, q);
    if d.Ok? {
      PursuePlaces(w, n, a, q, d.value.decision, e);
    }
  }

  /** An allowed re-check keeps the day's spend, with this quote in it, within the caps in force. */
  lemma {:induction false} AllowedWithinCaps(w: World, user: string, alias: string, q: Quote)
    requires Recheck(w, user, alias, q).Ok? && Recheck(w, user, alias, q).value.decision == P.Allow
    ensures var r := RulesFor(w, user);
            && (r.maxPerTransaction > 0 ==> q.finalPayable.minorUnits <= r.maxPerTransaction)
            && (r.maxPerDay > 0 ==>
                  SpendToday(w, user, q.finalPayable.currency) + q.finalPayable.minorUnits <= r.maxPerDay)
  {
    P.AllowedPaymentRespectsCaps(RulesFor(w, user),
                                 PaymentInput(q, alias, SpendToday(w, user, q.finalPayable.currency)));
  }

  lemma {:induction false} SpendAppended(orders: seq<Order>, o: Order, user: string, currency: string, day: int)
    ensures SpendSince(orders + [o], user, currency, day)
            == SpendSince(orders, user, currency, day) + if OnLedger(o, user, currency, day) then o.total.minorUnits
                                                         else 0
  {
    assert (orders + [o])[..|orders|] == orders;
  }

  lemma {:induction false} CountAppended(orders: seq<Order>, o: Order, user: string, month: int)
    ensures CountSince(orders + [o], user, month)
            == CountSince(orders, user, month) + if o.user == user && o.placedAt.month >= month && Counts(o) then 1
                                                 else 0
  {
    assert (orders + [o])[..|orders|] == orders;
  }

  /** The order an execution placed: what the refreshed quote says, while the plan allowed one more, and with
      the day's total, this order in it, within the daily cap in force. */
  ghost predicate WellPlaced(w: World, n: nat, o: Order, remote: Result<Quote, Error>) {
    && n in w.deals.latest && w.deals.latest[n] in w.deals.approvals
    && RefreshQuote(w, w.deals.approvals[w.deals.latest[n]].quote, remote).Ok?
    && FromQuote(w, n, o, RefreshQuote(w, w.deals.approvals[w.deals.latest[n]].quote, remote).value)
    && !GateRefuses(w, o.user)
    && var r := RulesFor(w, o.user);
       && (r.maxPerTransaction > 0 ==> o.total.minorUnits <= r.maxPerTransaction)
       && (r.maxPerDay > 0 ==> SpendToday(w, o.user, o.total.currency) + o.total.minorUnits <= r.maxPerDay)
  }

  lemma {:induction false} ExecutePlaces(w: World, agent: string, n: nat, e: ExecuteEnv)
    requires w.env.cfg.remotes == {}
    ensures var o := OrderIn(ExecuteOnce(w, agent, n, e).1); o.Some? ==> WellPlaced(w, n, o.value, e.quote)
  {
    var a := Ready(w, agent, n);
    if a.Ok? {
      var row := w.deals.approvals[a.value];
      var q := RefreshQuote(w, row.quote, e.quote);
      if q.Ok? {
        RefreshIsStoodBy(w, row.quote, e.quote);
        AuthorizePlaces(w, n, a.value, q.value, e);
        if OrderIn(Authorize(w, n, a.value, q.value, e).1).Some? {
          AllowedWithinCaps(w, w.deals.intents[n].user, row.alias, q.value);
        }
      }
    }
  }

  /** Every order placed through Execute at the mock merchant leaves its user's day within the cap. */
  lemma {:induction false} DayStaysWithinCap(w: World, agent: string, n: nat, e: ExecuteEnv)
    requires Inv(w) && w.env.cfg.remotes == {}
    ensures var (t, r) := ExecuteOnce(w, agent, n, e);
            OrderIn(r).Some? ==>
              var o := OrderIn(r).value;
              var cap := RulesFor(w, o.user).maxPerDay;
              && t.record.orders == w.record.orders + [o]
              && (cap > 0 ==> SpendToday(t, o.user, o.total.currency) <= cap)
  {
    ExecutePlaces(w, agent, n, e);
    ExecuteOnceNear(w, agent, n, e, n);
    var o := OrderIn(ExecuteOnce(w, agent, n, e).1);
    if o.Some? {
      SpendAppended(w.record.orders, o.value, o.value.user, o.value.total.currency, w.env.now.day);
    }
  }

  // ----- how one step changes the orders

  /** No order changed, or one was placed. */
  ghost predicate Grows(w: World, t: World) {
    || t.record.orders == w.record.orders
    || exists n, o, remote :: WellPlaced(w, n, o, remote) && t.record.orders == w.record.orders + [o]
  }

  /** The order a cancellation takes off the ledger: the intent's last, if its owner asks, it is not cancelled yet,
      and its merchant agrees. */
  function TakenOff(w: World, op: Op): (k: Option<nat>)
    ensures k.Some? ==> k.value < |w.record.orders|
  {
    if op.Asks? && op.request.CancellingOrder? && Owned(w, op.asker, op.request.intent, ShoppingExecute).Ok? then
      var k := OrderIndex(w.record.orders, op.request.intent);
      if k.Some? && w.record.orders[k.value].status != M.Cancelled
         && AskToCancel(w, w.record.orders[k.value], op.request.answer).Ok?
      then k else None
    else None
  }

  function WithoutOrder(orders: seq<Order>, k: nat): seq<Order>
    requires k < |orders|
  {
    orders[k := orders[k].(status := M.Cancelled)]
  }

  /** The orders before and after a step against the mock merchant. */
  ghost predicate Evolves(w: World, op: Op, t: World) {
    var k := TakenOff(w, op);
    if k.Some? then t.record.orders == WithoutOrder(w.record.orders, k.value) else Grows(w, t)
  }

  lemma {:induction false} ExecuteGrows(w: World, key: string, agent: string, n: nat, e: ExecuteEnv)
    requires Inv(w) && w.env.cfg.remotes == {}
    ensures Grows(w, Execute(w, key, agent, n, e).0)
  {
    ExecutePlaces(w, agent, n, e);
    ExecuteOnceNear(w, agent, n, e, n);
    var o := OrderIn(ExecuteOnce(w, agent, n, e).1);
    if o.Some? {
      assert WellPlaced(w, n, o.value, e.quote);
    }
  }

  lemma {:induction false} OrderedEvolves(w: World, agent: string, r: Request)
    requires Inv(w) && w.env.cfg.remotes == {} && !IsShopping(r)
    ensures Evolves(w, Asks(agent, r), Ordered(w, agent, r))
  {
    assert Good(w, r.intent);
    match r
    case Executing(key, n, e) => ExecuteGrows(w, key, agent, n, e);
    case Authenticating(n, mo, ok, order, at) =>
    case Cancelling(n) => CancelNear(w, agent, n, 0);
    case CancellingOrder(n, answer) =>
  }

  lemma {:induction false} AskedEvolves(w: World, agent: string, r: Request)
    requires Inv(w) && w.env.cfg.remotes == {}
    ensures Evolves(w, Asks(agent, r), Asked(w, agent, r))
  {
    assert Good(w, Subject(w, r));
    if IsShopping(r) {
      ShoppedNear(w, agent, r, 0);
    } else {
      OrderedEvolves(w, agent, r);
    }
  }

  lemma {:induction false} StepEvolves(w: World, op: Op)
    requires Inv(w) && w.env.cfg.remotes == {}
    ensures Evolves(w, op, Step(w, op))
  {
    match op
    case Asks(agent, r) => AskedEvolves(w, agent, r);
    case Decides(user, a, d) => DecidedBeside(w, user, a, d, 0);
    case Happens(c) =>
  }

  // ----- what those changes do to the sums

  /** The order is on the ledger of this user, currency and day. */
  predicate OnLedger(o: Order, user: string, currency: string, day: int) {
    o.user == user && o.total.currency == currency && o.placedAt.day >= day && Counts(o)
  }

  /** Cancelling takes an order's total off the ledger, exactly; so it lowers the spend unless the total is negative. */
  lemma {:induction false} SpendCancelled(orders: seq<Order>, k: nat, user: string, currency: string, day: int)
    requires k < |orders|
    ensures var o := orders[k];
            SpendSince(WithoutOrder(orders, k), user, currency, day)
            == SpendSince(orders, user, currency, day) - if OnLedger(o, user, currency, day) then o.total.minorUnits
                                                         else 0
  {
    var last := |orders| - 1;
    var after := WithoutOrder(orders, k);
    if k == last {
      assert after[..last] == orders[..last];
    } else {
      assert after[..last] == WithoutOrder(orders[..last], k);
      SpendCancelled(orders[..last], k, user, currency, day);
    }
  }

  lemma {:induction false} CountCancelled(orders: seq<Order>, k: nat, user: string, month: int)
    requires k < |orders|
    ensures CountSince(WithoutOrder(orders, k), user, month) <= CountSince(orders, user, month)
  {
    var last := |orders| - 1;
    var after := WithoutOrder(orders, k);
    if k == last {
      assert after[..last] == orders[..last];
    } else {
      assert after[..last] == WithoutOrder(orders[..last], k);
      CountCancelled(orders[..last], k, user, month);
    }
  }

  /** No order was placed after today. */
  predicate Timely(orders: seq<Order>, day: int) {
    forall k | 0 <= k < |orders| :: orders[k].placedAt.day <= day
  }

  /** Nothing has been spent on a day that has only begun. */
  lemma {:induction false} SpendLater(orders: seq<Order>, user: string, currency: string, day: int, later: int)
    requires day < later && Timely(orders, day)
    ensures SpendSince(orders, user, currency, later) == 0
  {
    if orders != [] {
      SpendLater(orders[..|orders| - 1], user, currency, day, later);
    }
  }

  lemma {:induction false} CountLater(orders: seq<Order>, user: string, month: int, later: int)
    requires month <= later
    ensures CountSince(orders, user, later) <= CountSince(orders, user, month)
  {
    if orders != [] {
      CountLater(orders[..|orders| - 1], user, month, later);
    }
  }

  /** Time never runs backwards, and does not move while the services act. */
  lemma {:induction false} StepClock(w: World, op: Op)
    requires Inv(w)
    ensures Later(w.env.now, Step(w, op).env.now)
    ensures op.Happens? || Step(w, op).env == w.env
    ensures op.Happens? ==> Step(w, op).record == w.record
  {
    match op
    case Asks(agent, r) =>
      assert Good(w, Subject(w, r));
      AskedBeside(w, agent, r, 0);
    case Decides(user, a, d) => DecidedBeside(w, user, a, d, 0);
    case Happens(c) =>
  }

  // ----- the monthly allowance

  predicate OnDeveloper(sub: Option<B.Subscription>) {
    B.EffectivePlan(sub) == B.Developer
  }

  /** The step does not give the user a paid plan. */
  predicate KeepsPlan(op: Op, user: string) {
    op.Happens? && op.change.SubscriptionChanges? && op.change.user == user ==> OnDeveloper(Some(op.change.sub))
  }

  lemma {:induction false} MonthAfter(w: World, op: Op, t: World, user: string)
    requires Evolves(w, op, t) && w.env.cfg.gate && Later(w.env.now, t.env.now)
    requires t.env == w.env || t.record == w.record
    requires OnDeveloper(SubscriptionOf(w, user)) && CountSince(w.record.orders, user, w.env.now.month) <= 100
    ensures CountSince(t.record.orders, user, t.env.now.month) <= 100
  {
    if t.record == w.record {
      CountLater(w.record.orders, user, w.env.now.month, t.env.now.month);
    } else if TakenOff(w, op).Some? {
      CountCancelled(w.record.orders, TakenOff(w, op).value, user, w.env.now.month);
    } else if t.record.orders != w.record.orders {
      var n, o, remote :| WellPlaced(w, n, o, remote) && t.record.orders == w.record.orders + [o];
      CountAppended(w.record.orders, o, user, w.env.now.month);
    }
  }

  lemma {:induction false} PlanStays(w: World, op: Op, user: string)
    requires Inv(w) && KeepsPlan(op, user) && OnDeveloper(SubscriptionOf(w, user))
    ensures OnDeveloper(SubscriptionOf(Step(w, op), user))
  {
    StepClock(w, op);
  }

  lemma {:induction false} StepMonth(w: World, op: Op, user: string)
    requires Inv(w) && w.env.cfg.remotes == {} && w.env.cfg.gate && KeepsPlan(op, user)
    requires OnDeveloper(SubscriptionOf(w, user)) && CountSince(w.record.orders, user, w.env.now.month) <= 100
    ensures OnDeveloper(SubscriptionOf(Step(w, op), user))
    ensures CountSince(Step(w, op).record.orders, user, Step(w, op).env.now.month) <= 100
  {
    PlanStays(w, op, user);
    StepEvolves(w, op);
    StepClock(w, op);
    MonthAfter(w, op, Step(w, op), user);
  }

  /** Against the mock merchant, with the plan gate set, a user who stays on the Developer plan never has more
      than 100 counted orders in a month. */
  lemma {:induction false} MonthlyAllowanceHolds(w: World, ops: seq<Op>, user: string)
    requires Fresh(w) && w.env.cfg.remotes == {} && w.env.cfg.gate && OnDeveloper(SubscriptionOf(w, user))
    requires forall k | 0 <= k < |ops| :: KeepsPlan(ops[k], user)
    ensures CountSince(Run(w, ops).record.orders, user, Run(w, ops).env.now.month) <= 100
    ensures OnDeveloper(SubscriptionOf(Run(w, ops), user))
  {
    if ops != [] {
      var init := ops[..|ops| - 1];
      Reachable(w, init);
      assert forall k | 0 <= k < |init| :: init[k] == ops[k];
      MonthlyAllowanceHolds(w, init, user);
      StepMonth(Run(w, init), ops[|ops| - 1], user);
    }
  }
}
