/** The services of the purchase flow over shared mutable stores: each method does, store write by store write,
    what PurchaseFlow says the operation does to the world. */
module CommerceServices {
  import opened AuditTrails
  import opened Results
  import opened Money
  import opened Approvals
  import opened Quotes
  import opened PurchaseFlow
  import S = PurchaseStates
  import P = Policy
  import B = Billing
  import M = MockMerchant

  /** Every part of the quote is in the currency of its subtotal, or unset. */
  lemma {:induction false} ShopQuoteIsOneCurrency(shop: M.Shop, cart: nat)
    requires M.QuoteOf(shop, cart).Ok?
    ensures OneCurrency(M.QuoteOf(shop, cart).value.(cart := cart))
  {
  }

  ghost predicate AllOneCurrency(cs: seq<Candidate>) {
    forall c | c in cs && c.FromRemote? && c.quote.Ok? :: OneCurrency(c.quote.value)
  }

  /** Every quote another connector answers with is in one currency; the source's arithmetic panics otherwise. */
  ghost predicate Priced(op: Op) {
    && (op.Asks? && op.request.Discovering? ==> AllOneCurrency(op.request.candidates))
    && (op.Asks? && op.request.Executing? && op.request.env.quote.Ok? ==> OneCurrency(op.request.env.quote.value))
    && (op.Decides? && op.decision.Reapproving? && op.decision.remote.Ok? ==> OneCurrency(op.decision.remote.value))
  }

  class Services {
    const cfg: Config
    const shop: M.Connector

    var now: Instant
    var agents: map<string, Agent>
    var rules: map<string, P.Rules>
    var subs: map<string, B.Subscription>

    var quotes: map<nat, Quote>
    var next: nat

    var intents: map<nat, Intent>
    var approvals: map<nat, Approval>
    var latest: map<nat, nat>
    ghost var terms: map<nat, Terms>

    var orders: seq<Order>
    var audit: seq<Event<S.State>>
    var created: map<string, nat>
    var outcomes: map<(string, nat), ExecuteOutcome>

    ghost function View(): World
      reads this, shop
    {
      World(Env(cfg, now, agents, rules, subs), Market(shop.View(), quotes, next),
            Deals(intents, approvals, latest, terms), Record(orders, audit, created, outcomes))
    }

    constructor (cfg: Config, shop: M.Connector, now: Instant)
      ensures Fresh(View()) && this.cfg == cfg && this.shop == shop && View().env.now == now
    {
      this.cfg, this.shop, this.now := cfg, shop, now;
      agents, rules, subs := map[], map[], map[];
      quotes, next := map[], 0;
      intents, approvals, latest, terms := map[], map[], map[], map[];
      orders, audit, created, outcomes := [], [], map[], map[];
    }

    // ----- authz.go, transition.go

    method RequirePermission(agent: string, p: Permission) returns (r: Result<string, Error>)
      ensures r == Permitted(View(), agent, p)
    {
      if agent !in agents {
        return Err(NotFound);
      }
      if agents[agent].revoked || p !in agents[agent].permissions {
        return Err(Unauthorized);
      }
      return Ok(agents[agent].user);
    }

    method RequireOwnedIntent(agent: string, n: nat, p: Permission) returns (r: Result<Intent, Error>)
      ensures r == Owned(View(), agent, n, p)
      ensures r.Ok? <==> agent in agents && !agents[agent].revoked && p in agents[agent].permissions
                         && n in intents && intents[n].user == agents[agent].user
      ensures r.Ok? ==> r.value == intents[n]
      ensures r.Err? ==> r.error == if agent in agents && (agents[agent].revoked || p !in agents[agent].permissions)
                                    then Unauthorized else NotFound
    {
      var user := RequirePermission(agent, p);
      if user.Err? {
        return Err(user.error);
      }
      if n !in intents || intents[n].user != user.value {
        return Err(NotFound);
      }
      return Ok(intents[n]);
    }

    method RecordAudit(n: nat, previous: Option<S.State>, to: Option<S.State>)
      modifies this`audit
      ensures View() == Log(old(View()), Event(n, previous, to))
    {
      audit := audit + [Event(n, previous, to)];
    }

    /** Moves the intent, stores the whole row, and records the event; an illegal move changes nothing. */
    method TransitionIntent(n: nat, to: S.State) returns (ok: bool)
      requires n in intents
      modifies this`intents, this`audit
      ensures (View(), ok) == TryMove(old(View()), n, to)
    {
      var pi := intents[n];
      var moved := S.Transition(pi.status, to);
      if moved.Err? {
        return false;
      }
      intents := intents[n := pi.(status := moved.value)];
      RecordAudit(n, Some(pi.status), Some(moved.value));
      return true;
    }

    // ----- intent_service.go

    method CreateIntentFor(key: string, agent: string, user: string, items: seq<Wanted>, c: Constraints)
      returns (r: Result<nat, Error>)
      modifies this
      ensures (View(), r) == CreateIntent(old(View()), key, agent, user, items, c)
    {
      if key != "" && key in created {
        return Ok(created[key]);
      }
      var ok := RequirePermission(agent, CreateIntents);
      if ok.Err? {
        return Err(ok.error);
      }
      if |items| == 0 {
        return Err(Invalid);
      }
      if c.currency == "" || c.maxTotal <= 0 {
        return Err(Invalid);
      }
      var n := next;
      next := next + 1;
      intents := intents[n := Intent(user, S.Draft, items, c, None)];
      RecordAudit(n, None, Some(S.Draft));
      if key != "" {
        created := created[key := n];
      }
      return Ok(n);
    }

    method Cancel(agent: string, n: nat) returns (e: Option<Error>)
      modifies this
      ensures (View(), e) == CancelIntent(old(View()), agent, n)
    {
      var pi := RequireOwnedIntent(agent, n, ShoppingExecute);
      if pi.Err? {
        return Some(pi.error);
      }
      var ok := TransitionIntent(n, S.Cancelled);
      return if ok then None else Some(Conflict);
    }

    // ----- discovery_service.go

    /** Fills the cart with each item's best match; stops at the first item that cannot be added. */
    method FillCart(cart: nat, items: seq<Wanted>, matches: seq<Option<string>>) returns (matched: bool, failed: bool)
      modifies shop
      ensures Filling(shop.View(), matched, failed) == Fill(old(shop.View()), cart, items, matches, |items|)
    {
      matched, failed := false, false;
      for i := 0 to |items|
        invariant Filling(shop.View(), matched, failed) == Fill(old(shop.View()), cart, items, matches, i)
      {
        if !failed {
          var best := MatchOf(matches, i);
          if best.Some? {
            var e := shop.AddToCart(cart, best.value, items[i].quantity);
            if e.Some? {
              failed := true;
            } else {
              matched := true;
            }
          }
        }
      }
    }

    /** discoverOne at the mock merchant: a new cart, the matches, the one coupon it offers, and its quote. */
    method DiscoverAtShop(cart: nat, items: seq<Wanted>, matches: seq<Option<string>>) returns (r: Result<Quote, Error>)
      modifies shop
      ensures (shop.View(), r) == DiscoverShop(old(shop.View()), cart, items, matches)
    {
      shop.CreateCart(cart);
      var matched, failed := FillCart(cart, items, matches);
      if failed {
        return Err(NotFound);
      }
      if matched {
        var _ := shop.ApplyCoupon(cart, M.COUPON);
      }
      var q := shop.GetCheckoutQuote(cart);
      if q.Err? {
        return q;
      }
      ShopQuoteIsOneCurrency(shop.View(), cart);
      var again := Recompute(q.value.(cart := cart));
      return Ok(again);
    }

    method Report(n: nat, q: Result<Quote, Error>) returns (found: bool)
      modifies this`quotes, this`next, this`audit
      ensures (View(), found) == SaveOrNote(old(View()), n, q)
    {
      if q.Err? {
        RecordAudit(n, None, None);
        return false;
      }
      quotes := quotes[next := q.value];
      next := next + 1;
      return true;
    }

    method DiscoverWith(n: nat, c: Candidate) returns (found: bool)
      requires n in intents
      requires c.FromRemote? && c.quote.Ok? ==> OneCurrency(c.quote.value)
      modifies this`quotes, this`next, this`audit, shop
      ensures (View(), found) == DiscoverOne(old(View()), n, c)
    {
      match c
      case FromShop(matches) =>
        var cart := next;
        next := next + 1;
        var q := DiscoverAtShop(cart, intents[n].items, matches);
        found := Report(n, q);
      case FromRemote(name, q) =>
        var answer := q;
        if name !in cfg.remotes {
          answer := Err(NotFound);
        } else if q.Ok? {
          var again := Recompute(q.value);
          answer := Ok(again);
        }
        found := Report(n, answer);
    }

    method DiscoverFor(agent: string, n: nat, cs: seq<Candidate>) returns (e: Option<Error>)
      requires AllOneCurrency(cs)
      modifies this, shop
      ensures (View(), e) == Discover(old(View()), agent, n, cs)
    {
      var pi := RequireOwnedIntent(agent, n, ShoppingRead);
      if pi.Err? {
        return Some(pi.error);
      }
      var ok := TransitionIntent(n, S.Discovering);
      if !ok {
        return Some(Conflict);
      }
      var found := DiscoverEverywhere(n, cs);
      ok := TransitionIntent(n, if found then S.Quoted else S.Failed);
      return None;
    }

    method DiscoverEverywhere(n: nat, cs: seq<Candidate>) returns (found: bool)
      requires n in intents
      requires AllOneCurrency(cs)
      modifies this`quotes, this`next, this`audit, shop
      ensures (View(), found) == DiscoverAll(old(View()), n, cs)
    {
      found := false;
      for k := 0 to |cs|
        invariant (View(), found) == DiscoverAll(old(View()), n, cs[..k])
      {
        assert cs[..k + 1][..k] == cs[..k];
        var one := DiscoverWith(n, cs[k]);
        found := found || one;
      }
      assert cs[..|cs|] == cs;
    }

    // ----- quote_service.go

    method Select(agent: string, n: nat, q: nat) returns (e: Option<Error>)
      modifies this`intents
      ensures (View(), e) == SelectQuote(old(View()), agent, n, q)
    {
      var pi := RequireOwnedIntent(agent, n, ShoppingRead);
      if pi.Err? {
        return Some(pi.error);
      }
      if pi.value.status != S.Quoted {
        return Some(Conflict);
      }
      if q !in quotes {
        return Some(NotFound);
      }
      intents := intents[n := pi.value.(selected := Some(q))];
      return None;
    }

    method Refresh(q: nat, remote: Result<Quote, Error>) returns (r: Result<Quote, Error>)
      requires remote.Ok? ==> OneCurrency(remote.value)
      ensures r == RefreshQuote(View(), q, remote)
    {
      if q !in quotes {
        return Err(NotFound);
      }
      var existing := quotes[q];
      var answer := remote;
      if existing.merchant == shop.name {
        answer := shop.GetCheckoutQuote(existing.cart);
        if answer.Ok? {
          ShopQuoteIsOneCurrency(shop.View(), existing.cart);
        }
      } else if existing.merchant !in cfg.remotes {
        answer := Err(NotFound);
      }
      if answer.Err? {
        return answer;
      }
      var again := Recompute(answer.value.(cart := existing.cart));
      return Ok(again);
    }

    // ----- policy_service.go

    method CreateApproval(n: nat, quoteId: nat, q: Quote, status: Status)
      requires n in intents
      modifies this`approvals, this`latest, this`terms, this`next
      ensures View() == NewApproval(old(View()), n, quoteId, q, status)
    {
      var pi := intents[n];
      var alias := pi.constraints.paymentProfile;
      var hash := CanonicalHash(q.merchant, q.items, q.finalPayable.currency, alias);
      var a := next;
      next := next + 1;
      approvals := approvals[a := Approval(n, quoteId, pi.user, q.merchant, q.finalPayable, alias, hash, status,
                                           now.tick + cfg.approvalTTL)];
      latest := latest[n := a];
      terms := terms[a := Terms(q.finalPayable, q.items, status == Approved)];
    }

    method Conclude(n: nat, quoteId: nat, q: Quote, d: P.Decision)
      requires n in intents && intents[n].status == S.PolicyCheck
      modifies this
      ensures View() == Decided(old(View()), n, quoteId, q, d)
    {
      match d
      case Deny =>
        var _ := TransitionIntent(n, S.PolicyRejected);
      case RequireApproval =>
        CreateApproval(n, quoteId, q, Pending);
        var _ := TransitionIntent(n, S.ApprovalRequired);
      case Allow =>
        CreateApproval(n, quoteId, q, Approved);
        var _ := TransitionIntent(n, S.Approved);
    }

    method RequestPurchase(agent: string, n: nat) returns (r: Result<P.PolicyDecision, Error>)
      modifies this
      ensures (View(), r) == EvaluateAndTransition(old(View()), agent, n)
    {
      var pi := RequireOwnedIntent(agent, n, ShoppingExecute);
      if pi.Err? {
        return Err(pi.error);
      }
      if pi.value.selected == None {
        return Err(Invalid);
      }
      var quoteId := pi.value.selected.value;
      if quoteId !in quotes {
        return Err(NotFound);
      }
      var q := quotes[quoteId];
      var ok := TransitionIntent(n, S.PolicyCheck);
      if !ok {
        return Err(Conflict);
      }
      var mine := if pi.value.user != "" && pi.value.user in rules then rules[pi.value.user] else cfg.rules;
      var spend := SpendSince(orders, pi.value.user, q.finalPayable.currency, now.day);
      r := P.EvaluatePurchaseIntent(mine, PurchaseInput(pi.value, q, spend));
      if r.Ok? {
        RecordAudit(n, None, None);
        Conclude(n, quoteId, q, r.value.decision);
      }
    }

    // ----- approval_service.go

    method GetOwned(user: string, a: nat) returns (r: Result<Approval, Error>)
      ensures r == OwnApproval(View(), user, a)
    {
      if a !in approvals {
        return Err(NotFound);
      }
      if approvals[a].user != user {
        return Err(Unauthorized);
      }
      return Ok(approvals[a]);
    }

    method MoveIntentOf(n: nat, to: S.State) returns (e: Option<Error>)
      modifies this`intents, this`audit
      ensures (View(), e) == MoveParent(old(View()), n, to)
    {
      if n !in intents {
        return Some(NotFound);
      }
      var ok := TransitionIntent(n, to);
      return if ok then None else Some(Conflict);
    }

    method ApproveBy(user: string, a: nat) returns (e: Option<Error>)
      modifies this
      ensures (View(), e) == Approve(old(View()), user, a)
    {
      var row := GetOwned(user, a);
      if row.Err? {
        return Some(row.error);
      }
      if row.value.status == Expired || (row.value.status == Pending && IsExpired(row.value, now.tick)) {
        return Some(Conflict);
      }
      if row.value.status != Pending {
        return Some(Conflict);
      }
      terms := terms[a := Terms(row.value.amount, ItemsPutForward(View(), a), true)];
      approvals := approvals[a := row.value.(status := Approved)];
      e := MoveIntentOf(row.value.parent, S.Approved);
    }

    method RejectBy(user: string, a: nat) returns (e: Option<Error>)
      modifies this
      ensures (View(), e) == Reject(old(View()), user, a)
    {
      var row := GetOwned(user, a);
      if row.Err? {
        return Some(row.error);
      }
      if row.value.status != Pending && row.value.status != ReapprovalRequired {
        return Some(Conflict);
      }
      approvals := approvals[a := row.value.(status := Rejected)];
      e := MoveIntentOf(row.value.parent, S.Cancelled);
    }

    method ReapproveBy(user: string, a: nat, remote: Result<Quote, Error>) returns (e: Option<Error>)
      requires remote.Ok? ==> OneCurrency(remote.value)
      modifies this
      ensures (View(), e) == Reapprove(old(View()), user, a, remote)
    {
      var row := GetOwned(user, a);
      if row.Err? {
        return Some(row.error);
      }
      if row.value.status != ReapprovalRequired {
        return Some(Conflict);
      }
      var q := Refresh(row.value.quote, remote);
      if q.Err? {
        return Some(q.error);
      }
      var hash := CanonicalHash(row.value.merchant, q.value.items, q.value.finalPayable.currency, row.value.alias);
      terms := terms[a := Terms(q.value.finalPayable, q.value.items, true)];
      approvals := approvals[a := row.value.(amount := q.value.finalPayable, itemsHash := hash, status := Approved)];
      e := MoveIntentOf(row.value.parent, S.Approved);
    }

    // ----- order_service.go

    /** CheckExecution of the plan gate, if one is set. */
    method CheckPlan(user: string) returns (e: Option<Error>)
      ensures e.Some? ==> e.value == QuotaExceeded
      ensures e.Some? <==> cfg.gate && CountSince(orders, user, now.month) >= 100
                           && !(user in subs && subs[user].plan == B.Growth && B.Grants(subs[user].status))
    {
      if !cfg.gate {
        return None;
      }
      var sub := if user in subs then Some(subs[user]) else None;
      var plan := B.EntitlementOf(B.EffectivePlan(sub));
      if !plan.hardLimit {
        return None;
      }
      if CountSince(orders, user, now.month) >= plan.included {
        return Some(QuotaExceeded);
      }
      return None;
    }

    /** The only conditional write of the store: APPROVED to CONSUMED. */
    method MarkConsumed(a: nat) returns (claimed: bool)
      modifies this`approvals
      ensures claimed == (a in old(approvals) && old(approvals)[a].status == Approved)
      ensures View() == if claimed then WithStatus(old(View()), a, Consumed) else old(View())
    {
      if a !in approvals || approvals[a].status != Approved {
        return false;
      }
      approvals := approvals[a := approvals[a].(status := Consumed)];
      return true;
    }

    method RequireReapproval(n: nat, a: nat) returns (r: Result<ExecuteOutcome, Error>)
      requires n in intents && intents[n].status == S.Approved && a in approvals
      modifies this`approvals, this`intents, this`audit
      ensures View() == FlagReapproval(old(View()), n, a) && r == Ok(ExecuteOutcome(S.ReapprovalRequired, None))
    {
      approvals := approvals[a := approvals[a].(status := ReapprovalRequired)];
      var ok := TransitionIntent(n, S.ReapprovalRequired);
      if !ok {
        return Err(Conflict);
      }
      return Ok(ExecuteOutcome(intents[n].status, None));
    }

    method PlaceOrder(n: nat, a: nat, mo: M.MerchantOrder, placedAt: Instant) returns (r: Result<ExecuteOutcome, Error>)
      requires n in intents && S.CanTransition(intents[n].status, S.Succeeded)
      modifies this`orders, this`intents, this`audit
      ensures var o := NewOrder(old(View()), n, a, mo, placedAt);
              View() == Moved(Recorded(old(View()), o), n, S.Succeeded) && r == Ok(ExecuteOutcome(S.Succeeded, Some(o)))
    {
      var o := Order(n, a, intents[n].user, mo.merchant, mo.id, mo.items, mo.total, mo.status, placedAt);
      orders := orders + [o];
      var ok := TransitionIntent(n, S.Succeeded);
      if !ok {
        return Err(Conflict);
      }
      return Ok(ExecuteOutcome(intents[n].status, Some(o)));
    }

    method HandleExecutionResult(n: nat, a: nat, outcome: M.Outcome, placedAt: Instant)
      returns (r: Result<ExecuteOutcome, Error>)
      requires n in intents && intents[n].status == S.Executing
      modifies this`orders, this`intents, this`audit
      ensures (View(), r) == Settle(old(View()), n, a, outcome, placedAt)
    {
      var to := S.Failed;
      match outcome {
        case Succeeded(order) =>
          if order.None? {
            return Err(Unavailable);
          }
          r := PlaceOrder(n, a, order.value, placedAt);
          return;
        case AuthenticationRequired => to := S.AuthenticationRequired;
        case MerchantIntervention => to := S.MerchantInterventionRequired;
        case UserIntervention => to := S.UserInterventionRequired;
        case Refused =>
      }
      var ok := TransitionIntent(n, to);
      if !ok {
        return Err(Conflict);
      }
      return Ok(ExecuteOutcome(intents[n].status, None));
    }

    method CheckoutWith(n: nat, a: nat, q: Quote, shipping: bool, e: ExecuteEnv)
      returns (r: Result<ExecuteOutcome, Error>)
      requires n in intents && intents[n].status == S.Approved
      modifies this, shop
      ensures (View(), r) == Checkout(old(View()), n, a, q, shipping, e)
    {
      var ok := TransitionIntent(n, S.Executing);
      if !ok {
        return Err(Conflict);
      }
      if q.merchant != shop.name && q.merchant !in cfg.remotes {
        var _ := TransitionIntent(n, S.Failed);
        return Err(NotFound);
      }
      var result := e.checkout;
      var placedAt := now;
      if q.merchant == shop.name {
        result := shop.ExecuteCheckout(q.cart, shipping, next);
      } else if e.placedAt.Some? {
        placedAt := e.placedAt.value;
      }
      next := next + 1;
      if result.Err? {
        var _ := TransitionIntent(n, S.Failed);
        return Ok(ExecuteOutcome(S.Failed, None));
      }
      r := HandleExecutionResult(n, a, result.value, placedAt);
    }

    method AuthorizeWith(n: nat, a: nat, q: Quote, e: ExecuteEnv) returns (r: Result<ExecuteOutcome, Error>)
      requires n in intents && intents[n].status == S.Approved && a in approvals && approvals[a].status == Approved
      modifies this, shop
      ensures (View(), r) == Authorize(old(View()), n, a, q, e)
    {
      var row, user := approvals[a], intents[n].user;
      var hash := CanonicalHash(q.merchant, q.items, q.finalPayable.currency, row.alias);
      if !Matches(row, q.merchant, hash, q.finalPayable, row.alias, Amount(cfg.tolerance, q.finalPayable.currency)) {
        r := RequireReapproval(n, a);
        return;
      }
      var mine := if user != "" && user in rules then rules[user] else cfg.rules;
      var spend := SpendSince(orders, user, q.finalPayable.currency, now.day);
      var d := P.EvaluatePayment(mine, PaymentInput(q, row.alias, spend));
      if d.Err? {
        return Err(d.error);
      }
      r := PursueWith(n, a, q, d.value.decision, e);
    }

    method PursueWith(n: nat, a: nat, q: Quote, d: P.Decision, e: ExecuteEnv) returns (r: Result<ExecuteOutcome, Error>)
      requires n in intents && intents[n].status == S.Approved && a in approvals && approvals[a].status == Approved
      modifies this, shop
      ensures (View(), r) == Pursue(old(View()), n, a, q, d, e)
    {
      match d
      case Deny =>
        var _ := TransitionIntent(n, S.Executing);
        var _ := TransitionIntent(n, S.Failed);
        return Ok(ExecuteOutcome(S.Failed, None));
      case RequireApproval =>
        r := RequireReapproval(n, a);
      case Allow =>
        if e.shipping.Err? {
          return Err(e.shipping.error);
        }
        var claimed := MarkConsumed(a);
        if !claimed {
          return Err(Conflict);
        }
        r := CheckoutWith(n, a, q, e.shipping.value, e);
    }

    /** Ownership, status, plan, and an approval that may be executed. */
    method FindApproval(agent: string, n: nat) returns (r: Result<nat, Error>)
      ensures r == Ready(View(), agent, n)
    {
      var pi := RequireOwnedIntent(agent, n, ShoppingExecute);
      if pi.Err? {
        return Err(pi.error);
      }
      if pi.value.status != S.Approved {
        return Err(Conflict);
      }
      var refused := CheckPlan(pi.value.user);
      if refused.Some? {
        return Err(refused.value);
      }
      if n !in latest || latest[n] !in approvals {
        return Err(NotFound);
      }
      if !Executable(approvals[latest[n]], now.tick) {
        return Err(Conflict);
      }
      return Ok(latest[n]);
    }

    method ExecuteFresh(agent: string, n: nat, e: ExecuteEnv) returns (r: Result<ExecuteOutcome, Error>)
      requires e.quote.Ok? ==> OneCurrency(e.quote.value)
      modifies this, shop
      ensures (View(), r) == ExecuteOnce(old(View()), agent, n, e)
    {
      var a := FindApproval(agent, n);
      if a.Err? {
        return Err(a.error);
      }
      var q := Refresh(approvals[a.value].quote, e.quote);
      if q.Err? {
        return Err(q.error);
      }
      r := AuthorizeWith(n, a.value, q.value, e);
    }

    /** RunIdempotent around an execution. */
    method ExecuteFor(key: string, agent: string, n: nat, e: ExecuteEnv) returns (r: Result<ExecuteOutcome, Error>)
      requires e.quote.Ok? ==> OneCurrency(e.quote.value)
      modifies this, shop
      ensures (View(), r) == Execute(old(View()), key, agent, n, e)
    {
      if key == "" {
        r := ExecuteFresh(agent, n, e);
        return;
      }
      if (key, n) in outcomes {
        return Ok(outcomes[(key, n)]);
      }
      r := ExecuteFresh(agent, n, e);
      if r.Ok? {
        outcomes := outcomes[(key, n) := r.value];
      }
    }

    method Authenticated(agent: string, n: nat, merchantOrder: nat, success: bool,
                         order: Result<M.MerchantOrder, Error>,
                         placedAt: Instant) returns (r: Result<ExecuteOutcome, Error>)
      modifies this
      ensures (View(), r) == CompleteAuthentication(old(View()), agent, n, merchantOrder, success, order, placedAt)
    {
      var pi := RequireOwnedIntent(agent, n, ShoppingExecute);
      if pi.Err? {
        return Err(pi.error);
      }
      if pi.value.status != S.AuthenticationRequired {
        return Err(Conflict);
      }
      if n !in latest || latest[n] !in approvals {
        return Err(NotFound);
      }
      var a := latest[n];
      if !success {
        var _ := TransitionIntent(n, S.Failed);
        return Ok(ExecuteOutcome(S.Failed, None));
      }
      var merchant := approvals[a].merchant;
      var answer := order;
      if merchant == shop.name {
        answer := shop.GetOrder(merchantOrder);
      } else if merchant !in cfg.remotes {
        return Err(NotFound);
      }
      if answer.Err? {
        var _ := TransitionIntent(n, S.Failed);
        return Err(answer.error);
      }
      r := PlaceOrder(n, a, answer.value, placedAt);
    }

    method CancelOrderOf(agent: string, n: nat, remote: Option<Error>) returns (r: Result<Order, Error>)
      modifies this, shop
      ensures (View(), r) == CancelOrder(old(View()), agent, n, remote)
    {
      var pi := RequireOwnedIntent(agent, n, ShoppingExecute);
      if pi.Err? {
        return Err(pi.error);
      }
      var k := OrderIndex(orders, n);
      if k == None {
        return Err(NotFound);
      }
      var o := orders[k.value];
      if o.status == M.Cancelled {
        return Ok(o);
      }
      var refused := remote;
      if o.merchant == shop.name {
        refused := shop.CancelOrder(o.merchantOrder);
      } else if o.merchant !in cfg.remotes {
        return Err(NotFound);
      }
      if refused.Some? {
        return Err(refused.value);
      }
      o := o.(status := M.Cancelled);
      orders := orders[k.value := o];
      RecordAudit(n, None, None);
      return Ok(o);
    }

    // ----- whole runs

    method ServeShopping(agent: string, r: Request)
      requires IsShopping(r) && (r.Discovering? ==> AllOneCurrency(r.candidates))
      modifies this, shop
      ensures View() == Shopped(old(View()), agent, r)
    {
      match r
      case Creating(key, user, items, c) => var _ := CreateIntentFor(key, agent, user, items, c);
      case Discovering(n, cs) => var _ := DiscoverFor(agent, n, cs);
      case Selecting(n, q) => var _ := Select(agent, n, q);
      case Evaluating(n) => var _ := RequestPurchase(agent, n);
    }

    method ServeOrdering(agent: string, r: Request)
      requires !IsShopping(r) && (r.Executing? && r.env.quote.Ok? ==> OneCurrency(r.env.quote.value))
      modifies this, shop
      ensures View() == Ordered(old(View()), agent, r)
    {
      match r
      case Executing(key, n, e) => var _ := ExecuteFor(key, agent, n, e);
      case Authenticating(n, mo, ok, order, at) => var _ := Authenticated(agent, n, mo, ok, order, at);
      case Cancelling(n) => var _ := Cancel(agent, n);
      case CancellingOrder(n, answer) => var _ := CancelOrderOf(agent, n, answer);
    }

    method Decide(user: string, a: nat, d: PurchaseFlow.Decision)
      requires d.Reapproving? && d.remote.Ok? ==> OneCurrency(d.remote.value)
      modifies this
      ensures View() == DecidedBy(old(View()), user, a, d)
    {
      match d
      case Approving => var _ := ApproveBy(user, a);
      case Rejecting => var _ := RejectBy(user, a);
      case Reapproving(remote) => var _ := ReapproveBy(user, a, remote);
    }

    /** What happens around the services. */
    method Undergo(c: Change)
      modifies this, shop
      ensures View() == Changed(old(View()), c)
    {
      match c
      case AgentChanges(agent, identity) => agents := agents[agent := identity];
      case RulesChange(user, r) => rules := rules[user := r];
      case SubscriptionChanges(user, sub) => subs := subs[user := sub];
      case TimePasses(to) =>
        if Later(now, to) {
          now := to;
        }
      case ShopChanges(catalog, carts, placed) =>
        shop.catalog := catalog;
        shop.carts := carts;
        shop.orders := placed;
    }

    method Serve(op: Op)
      requires Priced(op)
      modifies this, shop
      ensures View() == Step(old(View()), op)
    {
      match op
      case Asks(agent, r) =>
        if IsShopping(r) {
          ServeShopping(agent, r);
        } else {
          ServeOrdering(agent, r);
        }
      case Decides(user, a, d) => Decide(user, a, d);
      case Happens(c) => Undergo(c);
    }

    /** Serving operations one after the other is a run. */
    method ServeAll(ops: seq<Op>)
      requires forall op | op in ops :: Priced(op)
      modifies this, shop
      ensures View() == Run(old(View()), ops)
    {
      for k := 0 to |ops|
        invariant View() == Run(old(View()), ops[..k])
      {
        assert ops[..k + 1][..k] == ops[..k];
        Serve(ops[k]);
      }
      assert ops[..|ops|] == ops;
    }
  }
}
