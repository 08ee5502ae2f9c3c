/** How the daily cap is exceeded: nothing refuses a negative quantity, so an order of a negative total makes room
    on the day's ledger for a larger one, and cancelling it afterwards takes the room away again. */
module CancelledCredit {
  import opened Results
  import opened Text
  import opened Money
  import opened Approvals
  import opened Quotes
  import opened PurchaseFlow
  import opened PurchaseSpending
  import opened PurchaseCaps
  import B = Billing
  import G = Guardrails
  import S = PurchaseStates
  import P = Policy
  import M = MockMerchant

  /** Who buys, for which user, under which rules. */
  datatype Buyer = Buyer(agent: string, user: string, rules: P.Rules)

  const CHIPS := "mock-lays-chips-52g"
  const CHIPS_PRICE: int := 2000
  const ALIAS := "payment:personal"
  const HOME := "shipping:home"
  const TERMS: Constraints := Constraints(10_000, M.INR, HOME, ALIAS, "snacks", false)

  /** Rules that do not stand in the way of such a purchase, apart from its amount. */
  predicate Lets(r: P.Rules) {
    && r.currency == M.INR && r.allowedMerchants == [] && r.blockedMerchants == [] && r.blockedCategories == []
    && r.allowedPaymentProfiles == [ALIAS] && r.allowedShippingProfiles == [HOME]
  }

  predicate Sells(catalog: map<string, int>) {
    CHIPS in catalog && catalog[CHIPS] == CHIPS_PRICE
  }

  /** The buyer's agent may do everything, and the user's plan is far from used up. */
  predicate Open(w: World, b: Buyer) {
    && b.agent in w.env.agents
    && w.env.agents[b.agent] == Agent(b.user, {CreateIntents, ShoppingRead, ShoppingExecute}, false)
    && RulesFor(w, b.user) == b.rules && Lets(b.rules) && |w.record.orders| < 100
    && w.env.cfg.tolerance >= 0 && w.env.cfg.approvalTTL >= 0
    && Sells(w.market.shop.catalog)
  }

  /** What `quantity` packs cost with the coupon and the fees. */
  function Total(quantity: int): int {
    CHIPS_PRICE * quantity - M.TenthOf(CHIPS_PRICE * quantity) + 2500
  }

  /** Neither the caps nor the approval threshold stand in the way. */
  predicate RoomFor(w: World, b: Buyer, quantity: int) {
    && Total(quantity) <= b.rules.maxPerTransaction && Total(quantity) < b.rules.approvalThreshold
    && SpendToday(w, b.user, M.INR) + Total(quantity) <= b.rules.maxPerDay
  }

  function Wants(quantity: int): seq<Wanted> {
    [Wanted("chips", quantity)]
  }

  /** Everything but the intent is as it was, except for the shop's carts and orders. */
  ghost predicate Beyond(w: World, t: World, n: nat) {
    && t.env == w.env && t.market.shop.name == w.market.shop.name && t.market.shop.catalog == w.market.shop.catalog
    && forall m | m in w.deals.intents && m != n :: m in t.deals.intents && t.deals.intents[m] == w.deals.intents[m]
  }

  ghost predicate Unplaced(w: World, t: World, n: nat) {
    Beyond(w, t, n) && t.record.orders == w.record.orders && t.market.shop.orders == w.market.shop.orders
  }

  ghost predicate IntentIs(w: World, b: Buyer, n: nat, quantity: int, status: S.State, selected: Option<nat>) {
    n in w.deals.intents && w.deals.intents[n] == Intent(b.user, status, Wants(quantity), TERMS, selected)
  }

  // ----- one purchase, step by step

  predicate OnlyAsks(ops: seq<Op>) {
    forall j | 0 <= j < |ops| :: ops[j].Asks?
  }

  /** The worlds that an agent's requests can lead to. */
  ghost function From(start: World): iset<World> {
    iset w | LeadsTo(start, w)
  }

  ghost predicate LeadsTo(start: World, w: World) {
    exists ops :: OnlyAsks(ops) && Run(start, ops) == w
  }

  /** A set of worlds that no request leaves. The lemmas below are about any such set, so that a run can be followed
      without listing its requests. */
  ghost predicate Closed(r: iset<World>) {
    forall w, agent, q | w in r :: Asked(w, agent, q) in r
  }

  lemma {:induction false} FromIsClosed(start: World)
    ensures Closed(From(start)) && start in From(start)
  {
    assert OnlyAsks([]) && Run(start, []) == start;
    assert LeadsTo(start, start);
    forall w, agent, q | w in From(start)
      ensures Asked(w, agent, q) in From(start)
    {
      var ops :| OnlyAsks(ops) && Run(start, ops) == w;
      OneMore(start, ops, agent, q);
      assert LeadsTo(start, Asked(w, agent, q));
    }
  }

  lemma {:induction false} OneMore(start: World, ops: seq<Op>, agent: string, q: Request)
    requires OnlyAsks(ops)
    ensures OnlyAsks(ops + [Asks(agent, q)]) && Run(start, ops + [Asks(agent, q)]) == Asked(Run(start, ops), agent, q)
  {
    var more := ops + [Asks(agent, q)];
    assert more[..|more| - 1] == ops;
  }

  lemma {:induction false} Creates(r: iset<World>, w: World, b: Buyer, quantity: int) returns (t: World)
    requires Closed(r) && w in r && Open(w, b)
    ensures t in r
    ensures Unplaced(w, t, w.market.next) && IntentIs(t, b, w.market.next, quantity, S.Draft, None)
    ensures t.market.next == w.market.next + 1
  {
    t := Asked(w, b.agent, Creating("", b.user, Wants(quantity), TERMS));
    assert Permitted(w, b.agent, CreateIntents) == Ok(b.user);
    assert t == Created(w, "", Intent(b.user, S.Draft, Wants(quantity), TERMS, None));
  }

  function Basket(b: Buyer, quantity: int): M.Cart {
    M.Cart([M.CartItem(CHIPS, quantity)], true)
  }

  ghost predicate Priced(shop: M.Shop, cart: nat, b: Buyer, quantity: int) {
    var q := M.QuoteOf(shop, cart);
    && q.Ok? && q.value.merchant == shop.name && q.value.cart == cart && Recomputed(q.value) == q.value
    && q.value.finalPayable == Amount(Total(quantity), M.INR)
  }

  lemma {:induction false} BasketPrice(shop: M.Shop, cart: nat, b: Buyer, quantity: int)
    requires cart in shop.carts && shop.carts[cart] == Basket(b, quantity) && Sells(shop.catalog)
    ensures Priced(shop, cart, b, quantity)
  {
    var items := [M.CartItem(CHIPS, quantity)];
    assert items[..0] == [];
    assert M.QuoteItems(shop.catalog, items) == [Item(CHIPS, quantity, CHIPS_PRICE)];
    assert [Item(CHIPS, quantity, CHIPS_PRICE)][..0] == [];
    assert M.Subtotal([Item(CHIPS, quantity, CHIPS_PRICE)]) == CHIPS_PRICE * quantity;
  }

  lemma {:induction false} CouponIsUpper()
    ensures Upper(M.COUPON) == M.COUPON
  {
  }

  lemma {:induction false} Finds(shop: M.Shop, cart: nat, b: Buyer, quantity: int)
    requires Sells(shop.catalog)
    ensures var (t, q) := DiscoverShop(shop, cart, Wants(quantity), [Some(CHIPS)]);
            && t == shop.(carts := shop.carts[cart := Basket(b, quantity)])
            && q == M.QuoteOf(t, cart) && Priced(t, cart, b, quantity)
  {
    var emptied := shop.(carts := shop.carts[cart := M.Cart([], false)]);
    var matches := [Some(CHIPS)];
    var filled := shop.(carts := shop.carts[cart := M.Cart([M.CartItem(CHIPS, quantity)], false)]);
    assert Fill(emptied, cart, Wants(quantity), matches, 0) == Filling(emptied, false, false);
    assert emptied.carts[cart := filled.carts[cart]] == filled.carts;
    assert M.CartWith(emptied, cart, CHIPS, quantity) == Ok(filled);
    assert Fill(emptied, cart, Wants(quantity), matches, 1) == Filling(filled, true, false);
    CouponIsUpper();
    var full := shop.(carts := shop.carts[cart := Basket(b, quantity)]);
    assert filled.carts[cart := full.carts[cart]] == full.carts;
    assert M.CartWithCoupon(filled, cart, M.COUPON) == Ok(full);
    BasketPrice(full, cart, b, quantity);
    assert M.QuoteOf(full, cart).value.(cart := cart) == M.QuoteOf(full, cart).value;
  }

  lemma {:induction false} Discovers(r: iset<World>, w: World, b: Buyer, n: nat, quantity: int) returns (t: World)
    requires Closed(r) && w in r && Open(w, b) && IntentIs(w, b, n, quantity, S.Draft, None)
    ensures t in r
    ensures Unplaced(w, t, n) && IntentIs(t, b, n, quantity, S.Quoted, None) && t.market.next == w.market.next + 2
    ensures QuoteWaits(t, b, w.market.next, quantity)
  {
    var cs := [FromShop([Some(CHIPS)])];
    var u := Moved(w, n, S.Discovering);
    t := Asked(w, b.agent, Discovering(n, cs));
    assert Owned(w, b.agent, n, ShoppingRead) == Ok(w.deals.intents[n]);
    Finds(w.market.shop, w.market.next, b, quantity);
    assert cs[..0] == [] && DiscoverAll(u, n, []) == (u, false);
    assert DiscoverAll(u, n, cs) == (DiscoverOne(u, n, cs[0]).0, DiscoverOne(u, n, cs[0]).1);
  }

  /** The cart's quote has been saved, and the shop still stands by it. */
  ghost predicate QuoteWaits(w: World, b: Buyer, cart: nat, quantity: int) {
    && cart + 1 in w.market.quotes && Priced(w.market.shop, cart, b, quantity)
    && w.market.quotes[cart + 1] == M.QuoteOf(w.market.shop, cart).value
  }

  lemma {:induction false} Selects(r: iset<World>, w: World, b: Buyer, n: nat, cart: nat, quantity: int)
    returns (t: World)
    requires Closed(r) && w in r && Open(w, b) && IntentIs(w, b, n, quantity, S.Quoted, None)
             && QuoteWaits(w, b, cart, quantity)
    ensures t in r
    ensures Unplaced(w, t, n) && IntentIs(t, b, n, quantity, S.Quoted, Some(cart + 1)) && t.market == w.market
  {
    t := Asked(w, b.agent, Selecting(n, cart + 1));
    assert Owned(w, b.agent, n, ShoppingRead) == Ok(w.deals.intents[n]);
  }

  /** The approval is for the quote, granted, and not expired. */
  ghost predicate Granted(w: World, b: Buyer, n: nat, a: nat, cart: nat, quantity: int) {
    && n in w.deals.latest && w.deals.latest[n] == a && a in w.deals.approvals && QuoteWaits(w, b, cart, quantity)
    && var q, row := w.market.quotes[cart + 1], w.deals.approvals[a];
       && row.status == Approved && row.quote == cart + 1 && row.expiresAt >= w.env.now.tick && row.alias == ALIAS
       && row.merchant == q.merchant && row.amount == q.finalPayable && row.itemsHash == DigestOf(q.merchant, q, ALIAS)
  }

  lemma {:induction false} IsAllowed(w: World, b: Buyer, pi: Intent, q: Quote, quantity: int)
    requires Open(w, b) && pi.user == b.user && pi.constraints == TERMS && RoomFor(w, b, quantity)
    requires q.finalPayable == Amount(Total(quantity), M.INR)
    ensures Evaluate(w, pi, q).Ok? && Evaluate(w, pi, q).value.decision == P.Allow
    ensures Recheck(w, b.user, ALIAS, q).Ok? && Recheck(w, b.user, ALIAS, q).value.decision == P.Allow
  {
    var spent := SpendToday(w, b.user, M.INR);
    P.PurchaseVerdict(b.rules, PurchaseInput(pi, q, spent));
    P.PaymentVerdict(b.rules, PaymentInput(q, ALIAS, spent));
  }

  lemma {:induction false} EvaluatedAs(w: World, b: Buyer, n: nat, cart: nat, quantity: int)
    requires Open(w, b) && IntentIs(w, b, n, quantity, S.Quoted, Some(cart + 1)) && QuoteWaits(w, b, cart, quantity)
    requires RoomFor(w, b, quantity)
    ensures Asked(w, b.agent, Evaluating(n))
            == Moved(NewApproval(Noted(Moved(w, n, S.PolicyCheck), n), n, cart + 1,
                                 w.market.quotes[cart + 1], Approved),
                     n, S.Approved)
  {
    var pi, q := w.deals.intents[n], w.market.quotes[cart + 1];
    IsAllowed(w, b, pi, q, quantity);
    Evaluation(w, b.agent, n, cart + 1);
    AllowConcludes(Moved(w, n, S.PolicyCheck), n, cart + 1, q, Evaluate(w, pi, q));
  }

  /** An evaluation that can start is concluded. */
  lemma {:induction false} Evaluation(w: World, agent: string, n: nat, quoteId: nat)
    requires Owned(w, agent, n, ShoppingExecute).Ok? && w.deals.intents[n].selected == Some(quoteId)
    requires quoteId in w.market.quotes && w.deals.intents[n].status == S.Quoted
    ensures Asked(w, agent, Evaluating(n))
            == Concluded(Moved(w, n, S.PolicyCheck), n, quoteId, w.market.quotes[quoteId],
                         Evaluate(w, w.deals.intents[n], w.market.quotes[quoteId]))
  {
  }

  lemma {:induction false} AllowConcludes(w: World, n: nat, quoteId: nat, q: Quote, d: Result<P.PolicyDecision, Error>)
    requires n in w.deals.intents && d.Ok? && d.value.decision == P.Allow
    ensures Concluded(w, n, quoteId, q, d) == Moved(NewApproval(Noted(w, n), n, quoteId, q, Approved), n, S.Approved)
  {
  }

  lemma {:induction false} UnplacedChain(w: World, u: World, t: World, n: nat)
    requires Unplaced(w, u, n) && Unplaced(u, t, n)
    ensures Unplaced(w, t, n)
  {
  }

  lemma {:induction false} Evaluates(r: iset<World>, w: World, b: Buyer, n: nat, cart: nat, quantity: int)
    returns (t: World)
    requires Closed(r) && w in r && Open(w, b) && RoomFor(w, b, quantity)
    requires IntentIs(w, b, n, quantity, S.Quoted, Some(cart + 1)) && QuoteWaits(w, b, cart, quantity)
    ensures t in r
    ensures Unplaced(w, t, n) && IntentIs(t, b, n, quantity, S.Approved, Some(cart + 1))
    ensures t.market.next == w.market.next + 1 && Granted(t, b, n, w.market.next, cart, quantity)
  {
    var u := Noted(Moved(w, n, S.PolicyCheck), n);
    EvaluatedAs(w, b, n, cart, quantity);
    GrantRecorded(u, b, n, cart, quantity);
    t := Moved(NewApproval(u, n, cart + 1, w.market.quotes[cart + 1], Approved), n, S.Approved);
    assert Asked(w, b.agent, Evaluating(n)) in r;
    UnplacedChain(w, u, t, n);
  }

  lemma {:induction false} GrantRecorded(w: World, b: Buyer, n: nat, cart: nat, quantity: int)
    requires IntentIs(w, b, n, quantity, S.PolicyCheck, Some(cart + 1)) && QuoteWaits(w, b, cart, quantity)
    requires w.env.cfg.approvalTTL >= 0
    ensures var t := Moved(NewApproval(w, n, cart + 1, w.market.quotes[cart + 1], Approved), n, S.Approved);
            && Unplaced(w, t, n) && IntentIs(t, b, n, quantity, S.Approved, Some(cart + 1))
            && t.market.next == w.market.next + 1 && Granted(t, b, n, w.market.next, cart, quantity)
  {
  }

  const SMOOTHLY: ExecuteEnv := ExecuteEnv(Err(NotFound), Ok(true), Err(NotFound), None)

  /** The merchant has placed the order, and the services have recorded it. */
  ghost predicate Recording(w: World, t: World, b: Buyer, n: nat, orderId: nat, quantity: int) {
    && orderId in t.market.shop.orders && Beyond(w, t, n)
    && (forall k | k in w.market.shop.orders :: k in t.market.shop.orders)
    && |t.record.orders| == |w.record.orders| + 1 && t.record.orders[..|w.record.orders|] == w.record.orders
    && var o := t.record.orders[|w.record.orders|];
       && o.intent == n && o.user == b.user && o.merchant == w.market.shop.name && o.merchantOrder == orderId
       && o.total == Amount(Total(quantity), M.INR) && o.status == M.Placed && o.placedAt == w.env.now
  }

  lemma {:induction false} Executes(r: iset<World>, w: World, b: Buyer, n: nat, a: nat, cart: nat, quantity: int)
    returns (t: World)
    requires Closed(r) && w in r && Open(w, b) && IntentIs(w, b, n, quantity, S.Approved, Some(cart + 1))
             && Granted(w, b, n, a, cart, quantity)
    requires RoomFor(w, b, quantity)
    ensures t in r
    ensures Recording(w, t, b, n, w.market.next, quantity) && IntentIs(t, b, n, quantity, S.Succeeded, Some(cart + 1))
    ensures t.market.next == w.market.next + 1
  {
    t := Asked(w, b.agent, Executing("", n, SMOOTHLY));
    var q := w.market.quotes[cart + 1];
    assert Owned(w, b.agent, n, ShoppingExecute) == Ok(w.deals.intents[n]);
    PlanAllows(w, b.user);
    assert Ready(w, b.agent, n) == Ok(a);
    assert q.(cart := q.cart) == q;
    assert RefreshQuote(w, cart + 1, SMOOTHLY.quote) == Ok(q);
    IsAllowed(w, b, w.deals.intents[n], q, quantity);
    assert QuoteMatches(w, w.deals.approvals[a], q);
    assert t == Checkout(WithStatus(w, a, Consumed), n, a, q, true, SMOOTHLY).0;
    CheckoutRecords(WithStatus(w, a, Consumed), b, n, a, cart, quantity);
  }

  lemma {:induction false} CountAtMost(orders: seq<Order>, user: string, month: int)
    ensures CountSince(orders, user, month) <= |orders|
  {
    if orders != [] {
      CountAtMost(orders[..|orders| - 1], user, month);
    }
  }

  lemma {:induction false} PlanAllows(w: World, user: string)
    requires |w.record.orders| < 100
    ensures !GateRefuses(w, user)
  {
    CountAtMost(w.record.orders, user, w.env.now.month);
    assert B.Refuses(SubscriptionOf(w, user), CountSince(w.record.orders, user, w.env.now.month))
           ==> CountSince(w.record.orders, user, w.env.now.month) >= 100;
  }

  lemma {:induction false} CheckoutRecords(w: World, b: Buyer, n: nat, a: nat, cart: nat, quantity: int)
    requires IntentIs(w, b, n, quantity, S.Approved, Some(cart + 1)) && Priced(w.market.shop, cart, b, quantity)
    ensures var t := Checkout(w, n, a, M.QuoteOf(w.market.shop, cart).value, true, SMOOTHLY).0;
            && Recording(w, t, b, n, w.market.next, quantity)
            && IntentIs(t, b, n, quantity, S.Succeeded, Some(cart + 1))
            && t.market.next == w.market.next + 1
  {
    var q := M.QuoteOf(w.market.shop, cart).value;
    var (shop, outcome) := M.Checkout(w.market.shop, cart, true, w.market.next);
    var u := Dealt(Moved(w, n, S.Executing), shop);
    var o := NewOrder(u, n, a, outcome.value.order.value, w.env.now);
    assert Checkout(w, n, a, q, true, SMOOTHLY).0 == Moved(Recorded(u, o), n, S.Succeeded);
  }

  // ----- the run

  lemma {:induction false} RecordingAfter(w: World, v: World, t: World, b: Buyer, n: nat, orderId: nat, quantity: int)
    requires Unplaced(w, v, n) && Recording(v, t, b, n, orderId, quantity)
    ensures Recording(w, t, b, n, orderId, quantity)
  {
  }

  /** The day's room and the buyer's rights do not depend on what has not been placed. */
  lemma {:induction false} StaysOpen(w: World, t: World, b: Buyer, n: nat, quantity: int)
    requires Open(w, b) && RoomFor(w, b, quantity) && Unplaced(w, t, n)
    ensures Open(t, b) && RoomFor(t, b, quantity)
  {
  }

  /** From the intent to the chosen quote. */
  lemma {:induction false} Shops(r: iset<World>, w: World, b: Buyer, quantity: int) returns (t: World)
    requires Closed(r) && w in r && Open(w, b)
    ensures t in r && Unplaced(w, t, w.market.next) && t.market.next == w.market.next + 3
    ensures IntentIs(t, b, w.market.next, quantity, S.Quoted, Some(w.market.next + 2))
    ensures QuoteWaits(t, b, w.market.next + 1, quantity)
  {
    var n := w.market.next;
    var drafted := Creates(r, w, b, quantity);
    var found := Discovers(r, drafted, b, n, quantity);
    t := Selects(r, found, b, n, n + 1, quantity);
    UnplacedChain(w, drafted, found, n);
    UnplacedChain(w, found, t, n);
  }

  /** From the chosen quote to the order. */
  lemma {:induction false} Pays(r: iset<World>, w: World, b: Buyer, n: nat, cart: nat, quantity: int) returns (t: World)
    requires Closed(r) && w in r && Open(w, b) && RoomFor(w, b, quantity)
    requires IntentIs(w, b, n, quantity, S.Quoted, Some(cart + 1)) && QuoteWaits(w, b, cart, quantity)
    ensures t in r && Recording(w, t, b, n, w.market.next + 1, quantity) && t.market.next == w.market.next + 2
    ensures n in t.deals.intents && t.deals.intents[n].user == b.user
  {
    var granted := Evaluates(r, w, b, n, cart, quantity);
    StaysOpen(w, granted, b, n, quantity);
    t := Executes(r, granted, b, n, w.market.next, cart, quantity);
    RecordingAfter(w, granted, t, b, n, w.market.next + 1, quantity);
  }

  lemma {:induction false} RecordingOpen(w: World, t: World, b: Buyer, n: nat, orderId: nat, quantity: int)
    requires Open(w, b) && Recording(w, t, b, n, orderId, quantity) && |w.record.orders| < 99
    ensures Open(t, b)
  {
  }

  /** A purchase for which the day has room goes through. */
  lemma {:induction false} Buys(r: iset<World>, w: World, b: Buyer, quantity: int) returns (t: World)
    requires Closed(r) && w in r && Open(w, b) && RoomFor(w, b, quantity) && |w.record.orders| < 99
    ensures t in r && Open(t, b) && t.market.next == w.market.next + 5
    ensures Recording(w, t, b, w.market.next, w.market.next + 4, quantity)
    ensures w.market.next in t.deals.intents && t.deals.intents[w.market.next].user == b.user
  {
    var n := w.market.next;
    var chosen := Shops(r, w, b, quantity);
    StaysOpen(w, chosen, b, n, quantity);
    t := Pays(r, chosen, b, n, n + 1, quantity);
    RecordingAfter(w, chosen, t, b, n, n + 4, quantity);
    RecordingOpen(w, t, b, n, n + 4, quantity);
  }

  /** Limits a user can set: 10000 a purchase and a day, asking from 10000 on. */
  const LIMITS: G.Limits := G.Limits(M.INR, 10_000, 10_000, 10_000, [], [], true)

  const BUYER: Buyer := Buyer("agent", "user", G.ToRules(LIMITS))

  const START: World :=
    World(Env(Config(true, 500, 900, P.DefaultRules(), {}), Instant(0, 0, 0),
              map[BUYER.agent := Agent(BUYER.user, {CreateIntents, ShoppingRead, ShoppingExecute}, false)],
              map[BUYER.user := BUYER.rules], map[]),
          Market(M.Shop("mock", M.CATALOG, map[], map[]), map[], 0),
          Deals(map[], map[], map[], map[]),
          Record([], [], map[], map[]))

  /** What one purchase adds to the day's ledger. */
  lemma {:induction false} Adds(w: World, t: World, b: Buyer, n: nat, orderId: nat, quantity: int)
    requires Recording(w, t, b, n, orderId, quantity)
    ensures SpendToday(t, b.user, M.INR) == SpendToday(w, b.user, M.INR) + Total(quantity)
  {
    var o := t.record.orders[|w.record.orders|];
    assert t.record.orders == w.record.orders + [o];
    SpendAppended(w.record.orders, o, b.user, M.INR, w.env.now.day);
  }

  /** The first order, and what of it is on the ledger. */
  ghost predicate CreditPlaced(w: World, b: Buyer) {
    && 0 < |w.record.orders| && 4 in w.market.shop.orders && 0 in w.deals.intents && w.deals.intents[0].user == b.user
    && var o := w.record.orders[0];
       && o.intent == 0 && o.merchantOrder == 4 && o.merchant == w.market.shop.name && o.status == M.Placed
       && OnLedger(o, b.user, M.INR, w.env.now.day) && o.total.minorUnits == -15_500
  }

  /** Caps and threshold are all 10000. */
  predicate Tight(r: P.Rules) {
    r.maxPerTransaction == r.maxPerDay == r.approvalThreshold == 10_000
  }

  lemma {:induction false} BuysCredit(r: iset<World>, w: World, b: Buyer) returns (t: World)
    requires Closed(r) && w in r && Open(w, b) && Tight(b.rules) && w.record.orders == [] && w.market.next == 0
    ensures t in r && Open(t, b) && CreditPlaced(t, b) && |t.record.orders| == 1 && t.market.next == 5
    ensures SpendToday(t, b.user, M.INR) == -15_500
  {
    t := Buys(r, w, b, -10);
    Adds(w, t, b, 0, 4, -10);
  }

  lemma {:induction false} StillPlaced(w: World, t: World, b: Buyer, n: nat, orderId: nat, quantity: int)
    requires CreditPlaced(w, b) && Recording(w, t, b, n, orderId, quantity) && n != 0
    ensures CreditPlaced(t, b) && |t.record.orders| == |w.record.orders| + 1
    ensures forall k | 0 <= k < |w.record.orders| :: t.record.orders[k] == w.record.orders[k]
    ensures t.record.orders[|w.record.orders|].intent == n
  {
    assert forall k | 0 <= k < |w.record.orders| :: t.record.orders[k] == t.record.orders[..|w.record.orders|][k];
  }

  /** Four packs more, in the room the credit has made. */
  lemma {:induction false} BuysMore(r: iset<World>, w: World, b: Buyer) returns (t: World)
    requires Closed(r) && w in r && Open(w, b) && Tight(b.rules) && CreditPlaced(w, b) && 0 < w.market.next
    requires |w.record.orders| < 99 && SpendToday(w, b.user, M.INR) <= 300
    ensures t in r && Open(t, b) && CreditPlaced(t, b) && t.market.next == w.market.next + 5
    ensures SpendToday(t, b.user, M.INR) == SpendToday(w, b.user, M.INR) + 9_700
    ensures |t.record.orders| == |w.record.orders| + 1 && t.record.orders[|w.record.orders|].intent == w.market.next
    ensures forall k | 0 <= k < |w.record.orders| :: t.record.orders[k] == w.record.orders[k]
  {
    t := Buys(r, w, b, 4);
    Adds(w, t, b, w.market.next, w.market.next + 4, 4);
    StillPlaced(w, t, b, w.market.next, w.market.next + 4, 4);
  }

  /** The intent's order is found however many others follow it. */
  lemma {:induction false} FirstIsFound(orders: seq<Order>)
    requires orders != [] && orders[0].intent == 0 && forall k | 0 < k < |orders| :: orders[k].intent != 0
    ensures OrderIndex(orders, 0) == Some(0)
  {
    if |orders| > 1 {
      FirstIsFound(orders[..|orders| - 1]);
    }
  }

  lemma {:induction false} CreditCancelled(w: World, b: Buyer)
    requires Open(w, b) && CreditPlaced(w, b) && forall k | 0 < k < |w.record.orders| :: w.record.orders[k].intent != 0
    ensures SpendToday(Asked(w, b.agent, CancellingOrder(0, None)), b.user, M.INR)
            == SpendToday(w, b.user, M.INR) + 15_500
  {
    assert Owned(w, b.agent, 0, ShoppingExecute) == Ok(w.deals.intents[0]);
    FirstIsFound(w.record.orders);
    SpendCancelled(w.record.orders, 0, b.user, M.INR, w.env.now.day);
  }

  /** A credit, two purchases in the room it made, and the credit's cancellation. */
  lemma {:induction false} Exceeds(r: iset<World>, w: World, b: Buyer) returns (t: World)
    requires Closed(r) && w in r && Open(w, b) && Tight(b.rules) && w.record.orders == [] && w.market.next == 0
    ensures t in r && SpendToday(t, b.user, M.INR) == 19_400
  {
    var credited := BuysCredit(r, w, b);
    var once := BuysMore(r, credited, b);
    var twice := BuysMore(r, once, b);
    CreditCancelled(twice, b);
    t := Asked(twice, b.agent, CancellingOrder(0, None));
  }

  /** A run from a fresh deployment with the merchant's own price list, under limits a user can set with a daily cap of
      10000, that ends with 19400 on the day's ledger. */
  lemma {:induction false} CapExceeded() returns (w: World, ops: seq<Op>, user: string, limits: G.Limits)
    ensures Fresh(w) && w.env.cfg.remotes == {} && w.market.shop.catalog == M.CATALOG
    ensures G.Normalized(limits) == Ok(limits) && RulesFor(w, user) == G.ToRules(limits) && limits.maxPerDay == 10_000
    ensures Capped(RulesFor(w, user), 10_000) && forall j | 0 <= j < |ops| :: KeepsCap(ops[j], user, 10_000)
    ensures SpendToday(Run(w, ops), user, M.INR) == 19_400
  {
    w, user, limits := START, BUYER.user, LIMITS;
    LimitsAreNormal();
    StartIsOpen();
    FromIsClosed(START);
    var t := Exceeds(From(START), START, BUYER);
    ops := RequestsTo(START, t);
  }

  lemma {:induction false} LimitsAreNormal()
    ensures G.Normalized(LIMITS) == Ok(LIMITS)
  {
    assert Upper(M.INR) == M.INR;
  }

  /** No two entries of the price list share the chips' id. */
  lemma {:induction false} ChipsAreSold()
    ensures Sells(M.CATALOG)
  {
    assert |CHIPS| == 19;
  }

  lemma {:induction false} StartIsOpen()
    ensures Open(START, BUYER) && Fresh(START) && Tight(BUYER.rules)
  {
    ChipsAreSold();
  }

  lemma {:induction false} RequestsTo(start: World, w: World) returns (ops: seq<Op>)
    requires w in From(start)
    ensures OnlyAsks(ops) && Run(start, ops) == w
  {
    ops :| OnlyAsks(ops) && Run(start, ops) == w;
  }
}
