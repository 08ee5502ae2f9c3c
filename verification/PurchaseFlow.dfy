/** The purchase flow over its stores, one operation at a time (internal/app: intent_service.go,
    discovery_service.go, quote_service.go, policy_service.go, approval_service.go, order_service.go).

    A World is the contents of every store the services share. Each operation is a function from the world
    before it to the world after it and its answer; class CommerceServices does the same step by step. */
module PurchaseFlow {
  import opened AuditTrails
  import opened Results
  import opened Money
  import opened Approvals
  import opened Quotes
  import S = PurchaseStates
  import P = Policy
  import B = Billing
  import M = MockMerchant

  // ----- rows

  datatype Permission = ShoppingRead | CreateIntents | ShoppingExecute

  datatype Agent = Agent(user: string, permissions: set<Permission>, revoked: bool)

  datatype Wanted = Wanted(query: string, quantity: int)

  datatype Constraints = Constraints(
    maxTotal: int,
    currency: string,
    deliveryProfile: string,
    paymentProfile: string,
    category: string,
    international: bool)

  datatype Intent = Intent(
    user: string,
    status: S.State,
    items: seq<Wanted>,
    constraints: Constraints,
    selected: Option<nat>)

  /** A reading of the clock, with the calendar day and month it falls in. */
  datatype Instant = Instant(tick: int, day: int, month: int)

  datatype Order = Order(
    intent: nat,
    approval: nat,
    user: string,
    merchant: string,
    merchantOrder: nat,
    items: seq<Item>,
    total: Amount,
    status: M.OrderStatus,
    placedAt: Instant)

  /** The terms an approval last put forward, and whether they have been granted: by policy, or by the user. */
  datatype Terms = Terms(amount: Amount, items: seq<Item>, granted: bool)

  datatype ExecuteOutcome = ExecuteOutcome(status: S.State, order: Option<Order>)

  /** Wiring that never changes: the plan gate, the price tolerance, the approval lifetime, the platform rules
      and the names of the registered connectors other than the mock merchant. */
  datatype Config = Config(gate: bool, tolerance: int, approvalTTL: int, rules: P.Rules, remotes: set<string>)

  /** What the services read and never write. */
  datatype Env = Env(
    cfg: Config,
    now: Instant,
    agents: map<string, Agent>,
    rules: map<string, P.Rules>,
    subs: map<string, B.Subscription>)

  /** The mock merchant, the saved quotes, and the next unused id. */
  datatype Market = Market(shop: M.Shop, quotes: map<nat, Quote>, next: nat)

  /** Intents and approvals; `latest` is each intent's newest approval, `terms` a history no service reads. */
  datatype Deals = Deals(
    intents: map<nat, Intent>,
    approvals: map<nat, Approval>,
    latest: map<nat, nat>,
    terms: map<nat, Terms>)

  /** Orders, the audit log, and the answers remembered per idempotency key. */
  datatype Record = Record(
    orders: seq<Order>,
    audit: seq<Event<S.State>>,
    created: map<string, nat>,
    outcomes: map<(string, nat), ExecuteOutcome>)

  datatype World = World(env: Env, market: Market, deals: Deals, record: Record)

  // ----- reading

  /** requirePermission. */
  function Permitted(w: World, agent: string, p: Permission): Result<string, Error> {
    if agent !in w.env.agents then Err(NotFound)
    else if w.env.agents[agent].revoked || p !in w.env.agents[agent].permissions then Err(Unauthorized)
    else Ok(w.env.agents[agent].user)
  }

  /** requireOwnedIntent: somebody else's intent is reported as missing. */
  function Owned(w: World, agent: string, n: nat, p: Permission): (r: Result<Intent, Error>)
    ensures r.Ok? ==> n in w.deals.intents && r.value == w.deals.intents[n]
  {
    var user := Permitted(w, agent, p);
    if user.Err? then Err(user.error)
    else if n !in w.deals.intents || w.deals.intents[n].user != user.value then Err(NotFound)
    else Ok(w.deals.intents[n])
  }

  predicate Counts(o: Order) {
    o.status != M.Cancelled && o.status != M.Failed
  }

  /** The ledger: the totals of a user's orders placed on or after a day. */
  function SpendSince(orders: seq<Order>, user: string, currency: string, day: int): int {
    if orders == [] then 0
    else
      var o := orders[|orders| - 1];
      SpendSince(orders[..|orders| - 1], user, currency, day)
      + if o.user == user && o.total.currency == currency && o.placedAt.day >= day && Counts(o)
        then o.total.minorUnits else 0
  }

  function SpendToday(w: World, user: string, currency: string): int {
    SpendSince(w.record.orders, user, currency, w.env.now.day)
  }

  function CountSince(orders: seq<Order>, user: string, month: int): nat {
    if orders == [] then 0
    else
      var o := orders[|orders| - 1];
      CountSince(orders[..|orders| - 1], user, month)
      + if o.user == user && o.placedAt.month >= month && Counts(o) then 1 else 0
  }

  function RulesFor(w: World, user: string): P.Rules {
    if user != "" && user in w.env.rules then w.env.rules[user] else w.env.cfg.rules
  }

  function SubscriptionOf(w: World, user: string): Option<B.Subscription> {
    if user in w.env.subs then Some(w.env.subs[user]) else None
  }

  predicate GateRefuses(w: World, user: string) {
    w.env.cfg.gate && B.Refuses(SubscriptionOf(w, user), CountSince(w.record.orders, user, w.env.now.month))
  }

  /** The last order recorded for an intent. */
  function OrderIndex(orders: seq<Order>, n: nat): (k: Option<nat>)
    ensures k.Some? ==> k.value < |orders| && orders[k.value].intent == n
  {
    if orders == [] then None
    else if orders[|orders| - 1].intent == n then Some(|orders| - 1)
    else OrderIndex(orders[..|orders| - 1], n)
  }

  // ----- writing

  function PutIntent(w: World, n: nat, pi: Intent): World {
    w.(deals := w.deals.(intents := w.deals.intents[n := pi]))
  }

  function PutApproval(w: World, a: nat, row: Approval): World {
    w.(deals := w.deals.(approvals := w.deals.approvals[a := row]))
  }

  function PutTerms(w: World, a: nat, t: Terms): World {
    w.(deals := w.deals.(terms := w.deals.terms[a := t]))
  }

  function Log(w: World, e: Event<S.State>): World {
    w.(record := w.record.(audit := w.record.audit + [e]))
  }

  function Recorded(w: World, o: Order): World {
    w.(record := w.record.(orders := w.record.orders + [o]))
  }

  /** The shop after a merchant call, with one more id used up. */
  function Dealt(w: World, shop: M.Shop): World {
    w.(market := w.market.(shop := shop, next := w.market.next + 1))
  }

  function Noted(w: World, n: nat): World {
    Log(w, Event(n, None, None))
  }

  /** transitionIntent, when the move is legal: the row and its audit event. */
  function Moved(w: World, n: nat, to: S.State): World
    requires n in w.deals.intents
  {
    var pi := w.deals.intents[n];
    Log(PutIntent(w, n, pi.(status := to)), Event(n, Some(pi.status), Some(to)))
  }

  function TryMove(w: World, n: nat, to: S.State): (World, bool)
    requires n in w.deals.intents
  {
    if S.CanTransition(w.deals.intents[n].status, to) then (Moved(w, n, to), true) else (w, false)
  }

  function WithStatus(w: World, a: nat, status: Status): World
    requires a in w.deals.approvals
  {
    PutApproval(w, a, w.deals.approvals[a].(status := status))
  }

  // ----- IntentService

  function Created(w: World, key: string, pi: Intent): World {
    var n := w.market.next;
    var t := Log(PutIntent(w, n, pi), Event(n, None, Some(S.Draft)));
    t.(market := t.market.(next := n + 1),
       record := t.record.(created := if key == "" then t.record.created else t.record.created[key := n]))
  }

  function CreateIntent(w: World, key: string, agent: string, user: string, items: seq<Wanted>, c: Constraints)
    : (World, Result<nat, Error>)
  {
    if key != "" && key in w.record.created then (w, Ok(w.record.created[key]))
    else
      var ok := Permitted(w, agent, CreateIntents);
      if ok.Err? then (w, Err(ok.error))
      else if items == [] || c.currency == "" || c.maxTotal <= 0 then (w, Err(Invalid))
      else
        (Created(w, key, Intent(user, S.Draft, items, c, None)), Ok(w.market.next))
  }

  function CancelIntent(w: World, agent: string, n: nat): (World, Option<Error>) {
    var pi := Owned(w, agent, n, ShoppingExecute);
    if pi.Err? then (w, Some(pi.error))
    else
      var (t, ok) := TryMove(w, n, S.Cancelled);
      (t, if ok then None else Some(Conflict))
  }

  // ----- DiscoveryService

  /** What one connector contributes to a discovery: the mock merchant's best match for each wanted item, or
      another connector's quote. */
  datatype Candidate =
    | FromShop(matches: seq<Option<string>>)
    | FromRemote(name: string, quote: Result<Quote, Error>)

  function MatchOf(matches: seq<Option<string>>, i: nat): Option<string> {
    if i < |matches| then matches[i] else None
  }

  /** A cart being filled; `failed` once an item could not be added. */
  datatype Filling = Filling(shop: M.Shop, matched: bool, failed: bool)

  /** Adds the best match of each of the first `k` items, stopping at the first failure. */
  function Fill(shop: M.Shop, cart: nat, items: seq<Wanted>, matches: seq<Option<string>>, k: nat): Filling
    requires k <= |items|
  {
    if k == 0 then Filling(shop, false, false)
    else
      var f := Fill(shop, cart, items, matches, k - 1);
      var best := MatchOf(matches, k - 1);
      if f.failed || best == None then f
      else
        var added := M.CartWith(f.shop, cart, best.value, items[k - 1].quantity);
        if added.Err? then f.(failed := true) else Filling(added.value, true, false)
  }

  /** discoverOne at the mock merchant, which offers one code for any matched product. */
  function DiscoverShop(shop: M.Shop, cart: nat, items: seq<Wanted>, matches: seq<Option<string>>)
    : (M.Shop, Result<Quote, Error>)
  {
    var emptied := shop.(carts := shop.carts[cart := M.Cart([], false)]);
    var f := Fill(emptied, cart, items, matches, |items|);
    if f.failed then (f.shop, Err(NotFound))
    else
      var couponed := M.CartWithCoupon(f.shop, cart, M.COUPON);
      var full := if f.matched && couponed.Ok? then couponed.value else f.shop;
      var q := M.QuoteOf(full, cart);
      (full, if q.Ok? then Ok(Recomputed(q.value.(cart := cart))) else q)
  }

  /** A quote is saved, a failure noted; whether there was a quote. */
  function SaveOrNote(w: World, n: nat, q: Result<Quote, Error>): (World, bool) {
    if q.Ok? then
      (w.(market := w.market.(quotes := w.market.quotes[w.market.next := q.value], next := w.market.next + 1)), true)
    else (Noted(w, n), false)
  }

  /** discoverOne at another connector. */
  function RemoteQuote(cfg: Config, name: string, q: Result<Quote, Error>): Result<Quote, Error> {
    if name !in cfg.remotes then Err(NotFound) else if q.Ok? then Ok(Recomputed(q.value)) else q
  }

  /** One connector's turn. */
  function DiscoverOne(w: World, n: nat, c: Candidate): (World, bool)
    requires n in w.deals.intents
  {
    match c
    case FromShop(matches) =>
      var d := DiscoverShop(w.market.shop, w.market.next, w.deals.intents[n].items, matches);
      SaveOrNote(Dealt(w, d.0), n, d.1)
    case FromRemote(name, q) =>
      SaveOrNote(w, n, RemoteQuote(w.env.cfg, name, q))
  }

  /** Every connector's turn, and whether any quote was saved. */
  function DiscoverAll(w: World, n: nat, cs: seq<Candidate>): (r: (World, bool))
    requires n in w.deals.intents
    ensures r.0.deals.intents == w.deals.intents
  {
    if cs == [] then (w, false)
    else
      var (t, before) := DiscoverAll(w, n, cs[..|cs| - 1]);
      var (u, found) := DiscoverOne(t, n, cs[|cs| - 1]);
      (u, before || found)
  }

  function Discover(w: World, agent: string, n: nat, cs: seq<Candidate>): (World, Option<Error>) {
    var pi := Owned(w, agent, n, ShoppingRead);
    if pi.Err? then (w, Some(pi.error))
    else if !S.CanTransition(pi.value.status, S.Discovering) then (w, Some(Conflict))
    else
      var (t, found) := DiscoverAll(Moved(w, n, S.Discovering), n, cs);
      (Moved(t, n, if found then S.Quoted else S.Failed), None)
  }

  // ----- QuoteService

  function SelectQuote(w: World, agent: string, n: nat, q: nat): (World, Option<Error>) {
    var pi := Owned(w, agent, n, ShoppingRead);
    if pi.Err? then (w, Some(pi.error))
    else if pi.value.status != S.Quoted then (w, Some(Conflict))
    else if q !in w.market.quotes then (w, Some(NotFound))
    else (PutIntent(w, n, pi.value.(selected := Some(q))), None)
  }

  /** Asks the quote's own merchant to price the same cart again; `remote` is another connector's answer. */
  function RefreshQuote(w: World, q: nat, remote: Result<Quote, Error>): Result<Quote, Error> {
    if q !in w.market.quotes then Err(NotFound)
    else
      var existing := w.market.quotes[q];
      var answer := if existing.merchant == w.market.shop.name then M.QuoteOf(w.market.shop, existing.cart)
                    else if existing.merchant in w.env.cfg.remotes then remote
                    else Err(NotFound);
      if answer.Err? then answer else Ok(Recomputed(answer.value.(cart := existing.cart)))
  }

  // ----- PolicyService

  function PurchaseInput(pi: Intent, q: Quote, spendToday: int): P.Input {
    P.Input(q.merchant, pi.constraints.category, q.finalPayable.minorUnits, q.finalPayable.currency,
            pi.constraints.paymentProfile, pi.constraints.deliveryProfile, pi.constraints.international,
            spendToday, "", "")
  }

  /** evaluate: the user's own rules, on the selected quote. */
  function Evaluate(w: World, pi: Intent, q: Quote): Result<P.PolicyDecision, Error> {
    P.EvaluatePurchaseIntent(RulesFor(w, pi.user),
                             PurchaseInput(pi, q, SpendToday(w, pi.user, q.finalPayable.currency)))
  }

  function DigestOf(merchant: string, q: Quote, alias: string): Digest {
    CanonicalDigest(merchant, q.items, q.finalPayable.currency, alias)
  }

  function NewRow(w: World, n: nat, quoteId: nat, q: Quote, status: Status): Approval
    requires n in w.deals.intents
  {
    var pi := w.deals.intents[n];
    var alias := pi.constraints.paymentProfile;
    Approval(n, quoteId, pi.user, q.merchant, q.finalPayable, alias, DigestOf(q.merchant, q, alias), status,
             w.env.now.tick + w.env.cfg.approvalTTL)
  }

  /** createApproval: a new row, the latest of its intent. */
  function NewApproval(w: World, n: nat, quoteId: nat, q: Quote, status: Status): World
    requires n in w.deals.intents
  {
    var a := w.market.next;
    var t := PutTerms(PutApproval(w, a, NewRow(w, n, quoteId, q, status)), a,
                      Terms(q.finalPayable, q.items, status == Approved));
    t.(deals := t.deals.(latest := t.deals.latest[n := a]), market := t.market.(next := a + 1))
  }

  /** What each decision leads to. */
  function Decided(w: World, n: nat, quoteId: nat, q: Quote, d: P.Decision): World
    requires n in w.deals.intents
  {
    match d
    case Deny => Moved(w, n, S.PolicyRejected)
    case RequireApproval => Moved(NewApproval(w, n, quoteId, q, Pending), n, S.ApprovalRequired)
    case Allow => Moved(NewApproval(w, n, quoteId, q, Approved), n, S.Approved)
  }

  /** A decision is noted and acted on; a failed evaluation leaves the intent in POLICY_CHECK. */
  function Concluded(w: World, n: nat, quoteId: nat, q: Quote, d: Result<P.PolicyDecision, Error>): World
    requires n in w.deals.intents
  {
    if d.Err? then w else Decided(Noted(w, n), n, quoteId, q, d.value.decision)
  }

  function EvaluateAndTransition(w: World, agent: string, n: nat): (World, Result<P.PolicyDecision, Error>) {
    var pi := Owned(w, agent, n, ShoppingExecute);
    if pi.Err? then (w, Err(pi.error))
    else if pi.value.selected == None then (w, Err(Invalid))
    else if pi.value.selected.value !in w.market.quotes then (w, Err(NotFound))
    else if !S.CanTransition(pi.value.status, S.PolicyCheck) then (w, Err(Conflict))
    else
      var q := w.market.quotes[pi.value.selected.value];
      var d := Evaluate(w, pi.value, q);
      (Concluded(Moved(w, n, S.PolicyCheck), n, pi.value.selected.value, q, d), d)
  }

  // ----- ApprovalService

  function OwnApproval(w: World, user: string, a: nat): (r: Result<Approval, Error>)
    ensures r.Ok? ==> a in w.deals.approvals && r.value == w.deals.approvals[a]
  {
    if a !in w.deals.approvals then Err(NotFound)
    else if w.deals.approvals[a].user != user then Err(Unauthorized)
    else Ok(w.deals.approvals[a])
  }

  /** The parent's move after its approval has been written: the write stands even if the move is refused. */
  function MoveParent(w: World, n: nat, to: S.State): (World, Option<Error>) {
    if n !in w.deals.intents then (w, Some(NotFound))
    else
      var (t, ok) := TryMove(w, n, to);
      (t, if ok then None else Some(Conflict))
  }

  function ItemsPutForward(w: World, a: nat): seq<Item> {
    if a in w.deals.terms then w.deals.terms[a].items else []
  }

  function Approve(w: World, user: string, a: nat): (World, Option<Error>) {
    var row := OwnApproval(w, user, a);
    if row.Err? then (w, Some(row.error))
    else if row.value.status != Pending || IsExpired(row.value, w.env.now.tick) then (w, Some(Conflict))
    else
      MoveParent(PutTerms(WithStatus(w, a, Approved), a, Terms(row.value.amount, ItemsPutForward(w, a), true)),
                 row.value.parent, S.Approved)
  }

  function Reject(w: World, user: string, a: nat): (World, Option<Error>) {
    var row := OwnApproval(w, user, a);
    if row.Err? then (w, Some(row.error))
    else if row.value.status != Pending && row.value.status != ReapprovalRequired then (w, Some(Conflict))
    else MoveParent(WithStatus(w, a, Rejected), row.value.parent, S.Cancelled)
  }

  /** The row re-bound to freshly quoted terms. */
  function Rebound(a: Approval, q: Quote): Approval {
    a.(amount := q.finalPayable, itemsHash := DigestOf(a.merchant, q, a.alias), status := Approved)
  }

  function Reapprove(w: World, user: string, a: nat, remote: Result<Quote, Error>): (World, Option<Error>) {
    var row := OwnApproval(w, user, a);
    if row.Err? then (w, Some(row.error))
    else if row.value.status != ReapprovalRequired then (w, Some(Conflict))
    else
      var q := RefreshQuote(w, row.value.quote, remote);
      if q.Err? then (w, Some(q.error))
      else
        MoveParent(PutTerms(PutApproval(w, a, Rebound(row.value, q.value)), a,
                            Terms(q.value.finalPayable, q.value.items, true)),
                   row.value.parent, S.Approved)
  }

  // ----- OrderService

  /** What the outside world answers during an execution: another connector's quote and checkout, the
      resolution of the delivery alias, and when a merchant says it placed the order. */
  datatype ExecuteEnv = ExecuteEnv(
    quote: Result<Quote, Error>,
    shipping: Result<bool, Error>,
    checkout: Result<M.Outcome, Error>,
    placedAt: Option<Instant>)

  function PaymentInput(q: Quote, alias: string, spendToday: int): P.Input {
    P.Input(q.merchant, "", q.finalPayable.minorUnits, q.finalPayable.currency, alias, "", false, spendToday, "", "")
  }

  /** Every check before the quote is refreshed; the approval that may be executed. */
  function Ready(w: World, agent: string, n: nat): (r: Result<nat, Error>)
    ensures r.Ok? ==> n in w.deals.intents && w.deals.intents[n].status == S.Approved
    ensures r.Ok? ==> n in w.deals.latest && r.value == w.deals.latest[n] && r.value in w.deals.approvals
                      && w.deals.approvals[r.value].status == Approved
  {
    var pi := Owned(w, agent, n, ShoppingExecute);
    if pi.Err? then Err(pi.error)
    else if pi.value.status != S.Approved then Err(Conflict)
    else if GateRefuses(w, pi.value.user) then Err(QuotaExceeded)
    else if n !in w.deals.latest || w.deals.latest[n] !in w.deals.approvals then Err(NotFound)
    else if !Executable(w.deals.approvals[w.deals.latest[n]], w.env.now.tick) then Err(Conflict)
    else Ok(w.deals.latest[n])
  }

  predicate QuoteMatches(w: World, a: Approval, q: Quote) {
    Matches(a, q.merchant, DigestOf(q.merchant, q, a.alias), q.finalPayable, a.alias,
            Amount(w.env.cfg.tolerance, q.finalPayable.currency))
  }

  function FlagReapproval(w: World, n: nat, a: nat): World
    requires n in w.deals.intents && a in w.deals.approvals
  {
    Moved(WithStatus(w, a, ReapprovalRequired), n, S.ReapprovalRequired)
  }

  function NewOrder(w: World, n: nat, a: nat, o: M.MerchantOrder, placedAt: Instant): Order
    requires n in w.deals.intents
  {
    Order(n, a, w.deals.intents[n].user, o.merchant, o.id, o.items, o.total, o.status, placedAt)
  }

  /** handleExecutionResult. */
  function Settle(w: World, n: nat, a: nat, outcome: M.Outcome, placedAt: Instant)
    : (World, Result<ExecuteOutcome, Error>)
    requires n in w.deals.intents
  {
    match outcome
    case Succeeded(None) => (w, Err(Unavailable))
    case Succeeded(Some(mo)) =>
      var o := NewOrder(w, n, a, mo, placedAt);
      (Moved(Recorded(w, o), n, S.Succeeded), Ok(ExecuteOutcome(S.Succeeded, Some(o))))
    case AuthenticationRequired =>
      (Moved(w, n, S.AuthenticationRequired), Ok(ExecuteOutcome(S.AuthenticationRequired, None)))
    case MerchantIntervention =>
      (Moved(w, n, S.MerchantInterventionRequired), Ok(ExecuteOutcome(S.MerchantInterventionRequired, None)))
    case UserIntervention =>
      (Moved(w, n, S.UserInterventionRequired), Ok(ExecuteOutcome(S.UserInterventionRequired, None)))
    case Refused => (Moved(w, n, S.Failed), Ok(ExecuteOutcome(S.Failed, None)))
  }

  /** A checkout that failed outright fails the intent. */
  function Finish(w: World, n: nat, a: nat, result: Result<M.Outcome, Error>, placedAt: Instant)
    : (World, Result<ExecuteOutcome, Error>)
    requires n in w.deals.intents
  {
    if result.Err? then (Moved(w, n, S.Failed), Ok(ExecuteOutcome(S.Failed, None)))
    else Settle(w, n, a, result.value, placedAt)
  }

  /** When an order counts as placed: a merchant other than the mock may say so itself. */
  function PlacedAt(w: World, q: Quote, e: ExecuteEnv): Instant {
    if q.merchant != w.market.shop.name && e.placedAt.Some? then e.placedAt.value else w.env.now
  }

  /** The call to the quote's merchant. */
  function CallMerchant(w: World, q: Quote, shipping: bool, e: ExecuteEnv): (M.Shop, Result<M.Outcome, Error>) {
    if q.merchant == w.market.shop.name then M.Checkout(w.market.shop, q.cart, shipping, w.market.next)
    else (w.market.shop, e.checkout)
  }

  /** After the claim: EXECUTING, the merchant's checkout, and its result. */
  function Checkout(w: World, n: nat, a: nat, q: Quote, shipping: bool, e: ExecuteEnv)
    : (World, Result<ExecuteOutcome, Error>)
    requires n in w.deals.intents
  {
    var t := Moved(w, n, S.Executing);
    if q.merchant != w.market.shop.name && q.merchant !in w.env.cfg.remotes then (Moved(t, n, S.Failed), Err(NotFound))
    else
      var call := CallMerchant(w, q, shipping, e);
      Finish(Dealt(t, call.0), n, a, call.1, PlacedAt(w, q, e))
  }

  /** What each payment-time decision leads to; addresses are resolved before the approval is claimed. */
  function Pursue(w: World, n: nat, a: nat, q: Quote, d: P.Decision, e: ExecuteEnv)
    : (World, Result<ExecuteOutcome, Error>)
    requires n in w.deals.intents && a in w.deals.approvals
  {
    match d
    case Deny => (Moved(Moved(w, n, S.Executing), n, S.Failed), Ok(ExecuteOutcome(S.Failed, None)))
    case RequireApproval => (FlagReapproval(w, n, a), Ok(ExecuteOutcome(S.ReapprovalRequired, None)))
    case Allow =>
      if e.shipping.Err? then (w, Err(e.shipping.error))
      else Checkout(WithStatus(w, a, Consumed), n, a, q, e.shipping.value, e)
  }

  /** The payment-time check of the refreshed quote under the user's own rules. */
  function Recheck(w: World, user: string, alias: string, q: Quote): Result<P.PolicyDecision, Error> {
    P.EvaluatePayment(RulesFor(w, user), PaymentInput(q, alias, SpendToday(w, user, q.finalPayable.currency)))
  }

  /** The checks on the refreshed quote, the claim, and the checkout. */
  function Authorize(w: World, n: nat, a: nat, q: Quote, e: ExecuteEnv): (World, Result<ExecuteOutcome, Error>)
    requires n in w.deals.intents && a in w.deals.approvals
  {
    var row := w.deals.approvals[a];
    if !QuoteMatches(w, row, q) then (FlagReapproval(w, n, a), Ok(ExecuteOutcome(S.ReapprovalRequired, None)))
    else
      var d := Recheck(w, w.deals.intents[n].user, row.alias, q);
      if d.Err? then (w, Err(d.error)) else Pursue(w, n, a, q, d.value.decision, e)
  }

  function ExecuteOnce(w: World, agent: string, n: nat, e: ExecuteEnv): (World, Result<ExecuteOutcome, Error>) {
    var a := Ready(w, agent, n);
    if a.Err? then (w, Err(a.error))
    else
      var q := RefreshQuote(w, w.deals.approvals[a.value].quote, e.quote);
      if q.Err? then (w, Err(q.error)) else Authorize(w, n, a.value, q.value, e)
  }

  /** Execute: at most one effect per key, for an intent; only an answer without an error is remembered. */
  function Execute(w: World, key: string, agent: string, n: nat, e: ExecuteEnv)
    : (World, Result<ExecuteOutcome, Error>)
  {
    if key == "" then ExecuteOnce(w, agent, n, e)
    else if (key, n) in w.record.outcomes then (w, Ok(w.record.outcomes[(key, n)]))
    else
      var (t, r) := ExecuteOnce(w, agent, n, e);
      (if r.Ok? then t.(record := t.record.(outcomes := t.record.outcomes[(key, n) := r.value])) else t, r)
  }

  /** The merchant's own order is recorded; without one the intent fails. */
  function Confirm(w: World, n: nat, a: nat, answer: Result<M.MerchantOrder, Error>, placedAt: Instant)
    : (World, Result<ExecuteOutcome, Error>)
    requires n in w.deals.intents
  {
    if answer.Err? then (Moved(w, n, S.Failed), Err(answer.error))
    else
      var o := NewOrder(w, n, a, answer.value, placedAt);
      (Moved(Recorded(w, o), n, S.Succeeded), Ok(ExecuteOutcome(S.Succeeded, Some(o))))
  }

  /** The rest of CompleteAuthentication; `order` is another connector's GetOrder, with the time it was placed. */
  function Resume(w: World, n: nat, a: nat, merchantOrder: nat, success: bool, order: Result<M.MerchantOrder, Error>,
                  placedAt: Instant): (World, Result<ExecuteOutcome, Error>)
    requires n in w.deals.intents && a in w.deals.approvals
  {
    var merchant := w.deals.approvals[a].merchant;
    if !success then (Moved(w, n, S.Failed), Ok(ExecuteOutcome(S.Failed, None)))
    else if merchant == w.market.shop.name then Confirm(w, n, a, M.GetOrderFrom(w.market.shop, merchantOrder), placedAt)
    else if merchant in w.env.cfg.remotes then Confirm(w, n, a, order, placedAt)
    else (w, Err(NotFound))
  }

  function CompleteAuthentication(w: World, agent: string, n: nat, merchantOrder: nat, success: bool,
                                  order: Result<M.MerchantOrder, Error>, placedAt: Instant)
    : (World, Result<ExecuteOutcome, Error>)
  {
    var pi := Owned(w, agent, n, ShoppingExecute);
    if pi.Err? then (w, Err(pi.error))
    else if pi.value.status != S.AuthenticationRequired then (w, Err(Conflict))
    else if n !in w.deals.latest || w.deals.latest[n] !in w.deals.approvals then (w, Err(NotFound))
    else Resume(w, n, w.deals.latest[n], merchantOrder, success, order, placedAt)
  }

  /** The merchant's answer to a cancellation: its shop afterwards, or why not; `remote` is another connector's. */
  function AskToCancel(w: World, o: Order, remote: Option<Error>): Result<M.Shop, Error> {
    if o.merchant == w.market.shop.name then M.OrderCancelled(w.market.shop, o.merchantOrder)
    else if o.merchant !in w.env.cfg.remotes then Err(NotFound)
    else if remote.Some? then Err(remote.value)
    else Ok(w.market.shop)
  }

  function WithCancelled(w: World, n: nat, k: nat, shop: M.Shop): World
    requires k < |w.record.orders|
  {
    var orders := w.record.orders[k := w.record.orders[k].(status := M.Cancelled)];
    Noted(w.(market := w.market.(shop := shop), record := w.record.(orders := orders)), n)
  }

  /** CancelOrder: only the merchant can cancel. */
  function CancelOrder(w: World, agent: string, n: nat, remote: Option<Error>): (World, Result<Order, Error>) {
    var pi := Owned(w, agent, n, ShoppingExecute);
    if pi.Err? then (w, Err(pi.error))
    else
      var k := OrderIndex(w.record.orders, n);
      if k == None then (w, Err(NotFound))
      else
        var o := w.record.orders[k.value];
        if o.status == M.Cancelled then (w, Ok(o))
        else
          var shop := AskToCancel(w, o, remote);
          if shop.Err? then (w, Err(shop.error))
          else (WithCancelled(w, n, k.value, shop.value), Ok(o.(status := M.Cancelled)))
  }

  // ----- runs

  /** What an agent may ask for. */
  datatype Request =
    | Creating(key: string, user: string, items: seq<Wanted>, constraints: Constraints)
    | Discovering(intent: nat, candidates: seq<Candidate>)
    | Selecting(intent: nat, quote: nat)
    | Evaluating(intent: nat)
    | Executing(key: string, intent: nat, env: ExecuteEnv)
    | Authenticating(intent: nat, merchantOrder: nat, success: bool, order: Result<M.MerchantOrder, Error>,
                     placedAt: Instant)
    | Cancelling(intent: nat)
    | CancellingOrder(intent: nat, answer: Option<Error>)

  /** What only the user may decide. */
  datatype Decision = Approving | Rejecting | Reapproving(remote: Result<Quote, Error>)

  /** What happens around the services. */
  datatype Change =
    | AgentChanges(agent: string, identity: Agent)
    | RulesChange(user: string, rules: P.Rules)
    | SubscriptionChanges(user: string, sub: B.Subscription)
    | TimePasses(to: Instant)
    | ShopChanges(catalog: map<string, int>, carts: map<nat, M.Cart>, orders: map<nat, M.MerchantOrder>)

  datatype Op =
    | Asks(asker: string, request: Request)
    | Decides(owner: string, approval: nat, decision: Decision)
    | Happens(change: Change)

  predicate Later(a: Instant, b: Instant) {
    a.tick <= b.tick && a.day <= b.day && a.month <= b.month
  }

  /** Requests that lead up to an approval; the others act on it. */
  predicate IsShopping(r: Request) {
    r.Creating? || r.Discovering? || r.Selecting? || r.Evaluating?
  }

  function Asked(w: World, agent: string, r: Request): World {
    if IsShopping(r) then Shopped(w, agent, r) else Ordered(w, agent, r)
  }

  function Shopped(w: World, agent: string, r: Request): World
    requires IsShopping(r)
  {
    match r
    case Creating(key, user, items, c) => CreateIntent(w, key, agent, user, items, c).0
    case Discovering(n, cs) => Discover(w, agent, n, cs).0
    case Selecting(n, q) => SelectQuote(w, agent, n, q).0
    case Evaluating(n) => EvaluateAndTransition(w, agent, n).0
  }

  function Ordered(w: World, agent: string, r: Request): World
    requires !IsShopping(r)
  {
    match r
    case Executing(key, n, e) => Execute(w, key, agent, n, e).0
    case Authenticating(n, mo, ok, order, at) => CompleteAuthentication(w, agent, n, mo, ok, order, at).0
    case Cancelling(n) => CancelIntent(w, agent, n).0
    case CancellingOrder(n, answer) => CancelOrder(w, agent, n, answer).0
  }

  function DecidedBy(w: World, user: string, a: nat, d: Decision): World {
    match d
    case Approving => Approve(w, user, a).0
    case Rejecting => Reject(w, user, a).0
    case Reapproving(remote) => Reapprove(w, user, a, remote).0
  }

  function Changed(w: World, c: Change): World {
    match c
    case AgentChanges(agent, identity) => w.(env := w.env.(agents := w.env.agents[agent := identity]))
    case RulesChange(user, rules) => w.(env := w.env.(rules := w.env.rules[user := rules]))
    case SubscriptionChanges(user, sub) => w.(env := w.env.(subs := w.env.subs[user := sub]))
    case TimePasses(to) => if Later(w.env.now, to) then w.(env := w.env.(now := to)) else w
    case ShopChanges(catalog, carts, orders) =>
      w.(market := w.market.(shop := M.Shop(w.market.shop.name, catalog, carts, orders)))
  }

  function Step(w: World, op: Op): World {
    match op
    case Asks(agent, r) => Asked(w, agent, r)
    case Decides(user, a, d) => DecidedBy(w, user, a, d)
    case Happens(c) => Changed(w, c)
  }

  function Run(w: World, ops: seq<Op>): World {
    if ops == [] then w else Step(Run(w, ops[..|ops| - 1]), ops[|ops| - 1])
  }

  /** A deployment before its first request. */
  predicate Fresh(w: World) {
    && w.deals == Deals(map[], map[], map[], map[]) && w.record == Record([], [], map[], map[])
    && w.market.quotes == map[]
  }
}
