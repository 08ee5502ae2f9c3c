/** What each purchase operation does, in terms of the stored rows: exactly when it goes ahead, and every row and
    event it leaves behind. */
module PurchaseEffects {
  import opened AuditTrails
  import opened Results
  import opened Text
  import opened Money
  import opened Approvals
  import opened Quotes
  import opened PurchaseFlow
  import S = PurchaseStates
  import P = Policy
  import B = Billing
  import M = MockMerchant

  // ----- who may act

  /** A known agent that is not revoked and holds the permission, on an intent of its own user. */
  predicate MayAct(w: World, agent: string, p: Permission, n: nat) {
    && agent in w.env.agents && !w.env.agents[agent].revoked && p in w.env.agents[agent].permissions
    && n in w.deals.intents && w.deals.intents[n].user == w.env.agents[agent].user
  }

  /** Why an agent may not act: what is missing, or somebody else's, is not found; what is forbidden is unauthorized. */
  lemma {:induction false} OwnedExactly(w: World, agent: string, p: Permission, n: nat)
    ensures var r := Owned(w, agent, n, p);
            && (r.Ok? <==> MayAct(w, agent, p, n))
            && (r.Err? ==>
                  r.error == if agent in w.env.agents
                                && (w.env.agents[agent].revoked || p !in w.env.agents[agent].permissions)
                             then Unauthorized else NotFound)
  {
  }

  /** Only the status of one intent has changed, and the change is audited. */
  predicate MovedOnly(w: World, t: World, n: nat, to: S.State) {
    && n in w.deals.intents
    && t.deals.intents == w.deals.intents[n := w.deals.intents[n].(status := to)]
    && t.record.audit == w.record.audit + [Event(n, Some(w.deals.intents[n].status), Some(to))]
    && t.deals.approvals == w.deals.approvals && t.deals.latest == w.deals.latest
    && t.record.orders == w.record.orders && t.market == w.market && t.env == w.env
  }

  // ----- creating and cancelling

  /** An intent is created exactly for an agent that may, with items, a currency and a positive limit: as a DRAFT under
      a new id. A key that was used before gives the intent it created then, and creates nothing. */
  lemma {:induction false} CreateExactly(w: World, key: string, agent: string, user: string, items: seq<Wanted>,
                                         c: Constraints)
    ensures var (t, r) := CreateIntent(w, key, agent, user, items, c);
            var n := w.market.next;
            if key != "" && key in w.record.created then t == w && r == Ok(w.record.created[key])
            else if agent in w.env.agents && !w.env.agents[agent].revoked
                    && CreateIntents in w.env.agents[agent].permissions
                    && items != [] && c.currency != "" && c.maxTotal > 0 then
              && r == Ok(n) && t.market.next == n + 1
              && t.deals.intents == w.deals.intents[n := Intent(user, S.Draft, items, c, None)]
              && t.record.audit == w.record.audit + [Event(n, None, Some(S.Draft))]
              && t.record.created == (if key == "" then w.record.created else w.record.created[key := n])
              && t.deals.approvals == w.deals.approvals && t.deals.latest == w.deals.latest
              && t.record.orders == w.record.orders && t.market.quotes == w.market.quotes
            else t == w && r.Err?
  {
  }

  /** The states from which an intent can be cancelled. */
  const CANCELLABLE: set<S.State> :=
    {S.Draft, S.Discovering, S.Quoted, S.PolicyCheck, S.ApprovalRequired, S.Approved, S.ReapprovalRequired,
     S.MerchantInterventionRequired, S.UserInterventionRequired}

  lemma {:induction false} CancelExactly(w: World, agent: string, n: nat)
    ensures var (t, e) := CancelIntent(w, agent, n);
            if MayAct(w, agent, ShoppingExecute, n) && w.deals.intents[n].status in CANCELLABLE
            then e == None && MovedOnly(w, t, n, S.Cancelled)
            else e.Some? && t == w
  {
    if n in w.deals.intents {
      S.ReachedFrom(w.deals.intents[n].status, S.Cancelled);
    }
  }

  // ----- selecting

  /** One of the saved quotes is selected, exactly while the intent is QUOTED. */
  lemma {:induction false} SelectExactly(w: World, agent: string, n: nat, q: nat)
    ensures var (t, e) := SelectQuote(w, agent, n, q);
            if MayAct(w, agent, ShoppingRead, n) && w.deals.intents[n].status == S.Quoted && q in w.market.quotes then
              && e == None && t.deals.intents == w.deals.intents[n := w.deals.intents[n].(selected := Some(q))]
              && t.record == w.record && t.market == w.market && t.deals.approvals == w.deals.approvals
            else e.Some? && t == w
  {
  }

  // ----- decisions on an approval

  /** The parent of an approval after a decision: moved if it is in a state that allows it, else left alone. */
  predicate ParentFollows(w: World, t: World, n: nat, sources: set<S.State>, to: S.State) {
    if n in w.deals.intents && w.deals.intents[n].status in sources
    then && t.deals.intents == w.deals.intents[n := w.deals.intents[n].(status := to)]
         && t.record.audit == w.record.audit + [Event(n, Some(w.deals.intents[n].status), Some(to))]
    else t.deals.intents == w.deals.intents && t.record.audit == w.record.audit
  }

  /** What a decision leaves alone. */
  predicate OnlyDecided(w: World, t: World) {
    && t.deals.latest == w.deals.latest && t.market == w.market && t.env == w.env
    && t.record.orders == w.record.orders && t.record.created == w.record.created
    && t.record.outcomes == w.record.outcomes
  }

  lemma {:induction false} ParentMoves(w: World, n: nat, sources: set<S.State>, to: S.State)
    requires sources == S.Predecessors(to)
    ensures var (t, e) := MoveParent(w, n, to);
            && ParentFollows(w, t, n, sources, to) && OnlyDecided(w, t) && t.deals.approvals == w.deals.approvals
            && (e == None <==> n in w.deals.intents && w.deals.intents[n].status in sources)
  {
    if n in w.deals.intents {
      S.ReachedFrom(w.deals.intents[n].status, to);
    }
  }

  /** Why a decision is refused: there is no such approval, it is somebody else's, or it is not open to it. */
  predicate RefusedFor(w: World, user: string, a: nat, e: Error) {
    e == if a !in w.deals.approvals then NotFound else if w.deals.approvals[a].user != user then Unauthorized
         else Conflict
  }

  /** An approval is granted exactly by its own user, while PENDING and not past its expiry; the grant stands whatever
      becomes of its intent, and every other approval is left alone. */
  lemma {:induction false} ApproveExactly(w: World, user: string, a: nat)
    ensures var (t, e) := Approve(w, user, a);
            if a in w.deals.approvals && w.deals.approvals[a].user == user
               && w.deals.approvals[a].status == Pending && w.env.now.tick <= w.deals.approvals[a].expiresAt then
              var row := w.deals.approvals[a];
              && t.deals.approvals == w.deals.approvals[a := row.(status := Approved)]
              && ParentFollows(w, t, row.parent, {S.PolicyCheck, S.ApprovalRequired, S.ReapprovalRequired}, S.Approved)
              && OnlyDecided(w, t)
            else t == w && e.Some? && RefusedFor(w, user, a, e.value)
  {
    if a in w.deals.approvals && w.deals.approvals[a].user == user && w.deals.approvals[a].status == Pending
       && !IsExpired(w.deals.approvals[a], w.env.now.tick) {
      var row := w.deals.approvals[a];
      ParentMoves(PutTerms(WithStatus(w, a, Approved), a, Terms(row.amount, ItemsPutForward(w, a), true)),
                  row.parent, {S.PolicyCheck, S.ApprovalRequired, S.ReapprovalRequired}, S.Approved);
    }
  }

  /** It is rejected exactly by its own user, while PENDING or awaiting reapproval, expired or not, and takes its
      intent with it. */
  lemma {:induction false} RejectExactly(w: World, user: string, a: nat)
    ensures var (t, e) := Reject(w, user, a);
            if a in w.deals.approvals && w.deals.approvals[a].user == user
               && w.deals.approvals[a].status in {Pending, ReapprovalRequired} then
              var row := w.deals.approvals[a];
              && t.deals.approvals == w.deals.approvals[a := row.(status := Rejected)]
              && ParentFollows(w, t, row.parent, CANCELLABLE, S.Cancelled) && OnlyDecided(w, t)
            else t == w && e.Some? && RefusedFor(w, user, a, e.value)
  {
    if a in w.deals.approvals && w.deals.approvals[a].user == user
       && w.deals.approvals[a].status in {Pending, ReapprovalRequired} {
      ParentMoves(WithStatus(w, a, Rejected), w.deals.approvals[a].parent, CANCELLABLE, S.Cancelled);
    }
  }

  /** It is reapproved exactly by its own user, while awaiting reapproval, when its quote can be had again: then it
      binds the amount and the items quoted now, and what else it says is as before. */
  lemma {:induction false} ReapproveExactly(w: World, user: string, a: nat, remote: Result<Quote, Error>)
    ensures var (t, e) := Reapprove(w, user, a, remote);
            if a in w.deals.approvals && w.deals.approvals[a].user == user
               && w.deals.approvals[a].status == ReapprovalRequired
               && RefreshQuote(w, w.deals.approvals[a].quote, remote).Ok? then
              var row, q := w.deals.approvals[a], RefreshQuote(w, w.deals.approvals[a].quote, remote).value;
              var hash := CanonicalDigest(row.merchant, q.items, q.finalPayable.currency, row.alias);
              && t.deals.approvals
                 == w.deals.approvals[a := Approval(row.parent, row.quote, row.user, row.merchant, q.finalPayable,
                                                    row.alias, hash, Approved, row.expiresAt)]
              && ParentFollows(w, t, row.parent, {S.PolicyCheck, S.ApprovalRequired, S.ReapprovalRequired}, S.Approved)
              && OnlyDecided(w, t)
            else t == w && e.Some?
                 && ((a in w.deals.approvals && w.deals.approvals[a].status == ReapprovalRequired
                      && w.deals.approvals[a].user == user) || RefusedFor(w, user, a, e.value))
  {
    if a in w.deals.approvals && w.deals.approvals[a].user == user && w.deals.approvals[a].status == ReapprovalRequired
       && RefreshQuote(w, w.deals.approvals[a].quote, remote).Ok? {
      var row, q := w.deals.approvals[a], RefreshQuote(w, w.deals.approvals[a].quote, remote).value;
      ParentMoves(PutTerms(PutApproval(w, a, Rebound(row, q)), a, Terms(q.finalPayable, q.items, true)),
                  row.parent, {S.PolicyCheck, S.ApprovalRequired, S.ReapprovalRequired}, S.Approved);
    }
  }

  // ----- the ledger

  /** The ledger adds up order by order: each one of the user's, in the currency, from the day on and neither cancelled
      nor failed, counts with its total, and no other counts at all. */
  lemma {:induction false} LedgerAdds(a: seq<Order>, b: seq<Order>, user: string, currency: string, day: int)
    ensures SpendSince(a + b, user, currency, day) == SpendSince(a, user, currency, day)
            + SpendSince(b, user, currency, day)
  {
    if b == [] {
      assert a + b == a;
    } else {
      LedgerAdds(a, b[..|b| - 1], user, currency, day);
      assert (a + b)[..|a + b| - 1] == a + b[..|b| - 1];
    }
  }

  lemma {:induction false} OneOrderCounts(o: Order, user: string, currency: string, day: int, month: int)
    ensures SpendSince([o], user, currency, day)
            == if o.user == user && o.total.currency == currency && o.placedAt.day >= day
                  && o.status in {M.Placed, M.Confirmed, M.Shipped, M.Delivered}
               then o.total.minorUnits else 0
    ensures CountSince([o], user, month)
            == if o.user == user && o.placedAt.month >= month
            && o.status in {M.Placed, M.Confirmed, M.Shipped, M.Delivered}
               then 1 else 0
  {
    assert [o][..0] == [];
  }

  /** And so does the month's count. */
  lemma {:induction false} CountAdds(a: seq<Order>, b: seq<Order>, user: string, month: int)
    ensures CountSince(a + b, user, month) == CountSince(a, user, month) + CountSince(b, user, month)
  {
    if b == [] {
      assert a + b == a;
    } else {
      CountAdds(a, b[..|b| - 1], user, month);
      assert (a + b)[..|a + b| - 1] == a + b[..|b| - 1];
    }
  }

  // ----- executing: the checks

  /** The monthly allowance is used up: a hundred orders, and no Growth subscription that grants more. */
  predicate PlanUsedUp(w: World, user: string) {
    && w.env.cfg.gate && CountSince(w.record.orders, user, w.env.now.month) >= 100
    && !(user in w.env.subs && w.env.subs[user].plan == B.Growth
         && w.env.subs[user].status in {B.Authenticated, B.Active, B.Pending})
  }

  /** Execute gets past its first checks exactly on an APPROVED intent of the agent's user, within the user's plan,
      whose latest approval is APPROVED and not past its expiry. */
  lemma {:induction false} ReadyExactly(w: World, agent: string, n: nat)
    ensures Ready(w, agent, n).Ok? <==>
              && MayAct(w, agent, ShoppingExecute, n) && w.deals.intents[n].status == S.Approved
              && !PlanUsedUp(w, w.deals.intents[n].user)
              && n in w.deals.latest && w.deals.latest[n] in w.deals.approvals
              && w.deals.approvals[w.deals.latest[n]].status == Approved
              && w.env.now.tick <= w.deals.approvals[w.deals.latest[n]].expiresAt
    ensures Ready(w, agent, n).Ok? ==> Ready(w, agent, n).value == w.deals.latest[n]
  {
  }

  /** A refreshed quote that is still what the approval says: the same merchant, items, alias and currency, and a total
      within the tolerance. */
  predicate TermsHold(w: World, row: Approval, q: Quote) {
    && q.merchant == row.merchant
    && CanonicalDigest(q.merchant, q.items, q.finalPayable.currency, row.alias) == row.itemsHash
    && q.finalPayable.currency == row.amount.currency
    && row.amount.minorUnits - w.env.cfg.tolerance <= q.finalPayable.minorUnits
       <= row.amount.minorUnits + w.env.cfg.tolerance
  }

  /** The user's rules forbid the payment: over a cap, in another currency, or on a source that is not listed. */
  predicate PaymentForbidden(w: World, user: string, alias: string, q: Quote) {
    var rules := if user != "" && user in w.env.rules then w.env.rules[user] else w.env.cfg.rules;
    || P.OverCaps(rules, q.finalPayable.minorUnits, q.finalPayable.currency,
                  SpendToday(w, user, q.finalPayable.currency))
    || !P.Listed(rules.allowedPaymentProfiles, alias)
  }

  lemma {:induction false} TermsExactly(w: World, row: Approval, q: Quote)
    ensures QuoteMatches(w, row, q) <==> TermsHold(w, row, q)
  {
  }

  lemma {:induction false} RecheckExactly(w: World, user: string, alias: string, q: Quote)
    ensures var d := Recheck(w, user, alias, q);
            d.Ok? && d.value.decision == if PaymentForbidden(w, user, alias, q) then P.Deny else P.Allow
  {
    P.PaymentVerdict(RulesFor(w, user), PaymentInput(q, alias, SpendToday(w, user, q.finalPayable.currency)));
  }

  // ----- executing: what comes of it

  /** Approval and intent are flagged together for reapproval. */
  predicate Flagged(w: World, t: World, n: nat, a: nat)
    requires n in w.deals.intents && a in w.deals.approvals
  {
    && t.deals.approvals == w.deals.approvals[a := w.deals.approvals[a].(status := ReapprovalRequired)]
    && t.deals.intents == w.deals.intents[n := w.deals.intents[n].(status := S.ReapprovalRequired)]
    && t.record.audit == w.record.audit + [Event(n, Some(w.deals.intents[n].status), Some(S.ReapprovalRequired))]
    && t.deals.latest == w.deals.latest && t.record.orders == w.record.orders && t.market == w.market
  }

  /** The intent has failed through EXECUTING, its approval untouched. */
  predicate Refused(w: World, t: World, n: nat)
    requires n in w.deals.intents
  {
    && t.deals.approvals == w.deals.approvals
    && t.deals.intents == w.deals.intents[n := w.deals.intents[n].(status := S.Failed)]
    && t.record.audit == w.record.audit + [Event(n, Some(w.deals.intents[n].status), Some(S.Executing)),
                                           Event(n, Some(S.Executing), Some(S.Failed))]
    && t.deals.latest == w.deals.latest && t.record.orders == w.record.orders && t.market == w.market
  }

  lemma {:induction false} FlagExactly(w: World, n: nat, a: nat)
    requires n in w.deals.intents && a in w.deals.approvals
    ensures Flagged(w, FlagReapproval(w, n, a), n, a)
  {
  }

  lemma {:induction false} DenialExactly(w: World, n: nat)
    requires n in w.deals.intents
    ensures Refused(w, Moved(Moved(w, n, S.Executing), n, S.Failed), n)
  {
    var pi := w.deals.intents[n];
    assert w.deals.intents[n := pi.(status := S.Executing)][n := pi.(status := S.Failed)]
           == w.deals.intents[n := pi.(status := S.Failed)];
  }

  /** Where a merchant's answer leaves the intent; an answer without its order leaves it in EXECUTING. */
  function Landing(answer: Result<M.Outcome, Error>): S.State {
    match answer
    case Err(_) => S.Failed
    case Ok(Succeeded(None)) => S.Executing
    case Ok(Succeeded(Some(_))) => S.Succeeded
    case Ok(AuthenticationRequired) => S.AuthenticationRequired
    case Ok(MerchantIntervention) => S.MerchantInterventionRequired
    case Ok(UserIntervention) => S.UserInterventionRequired
    case Ok(Refused) => S.Failed
  }

  /** An order as the merchant reports it is recorded, for the intent, its user and its approval, and nothing else is.
      */
  predicate OrderRecorded(w: World, t: World, n: nat, a: nat, answer: Result<M.Outcome, Error>, at: Instant)
    requires n in w.deals.intents
  {
    match answer
    case Ok(Succeeded(Some(mo))) =>
      t.record.orders == w.record.orders + [Order(n, a, w.deals.intents[n].user, mo.merchant, mo.id, mo.items, mo.total,
                                                  mo.status, at)]
    case _ => t.record.orders == w.record.orders
  }

  /** The settlement of a merchant's answer, from EXECUTING. */
  lemma {:induction false} SettleExactly(w: World, n: nat, a: nat, answer: Result<M.Outcome, Error>, at: Instant)
    requires n in w.deals.intents && w.deals.intents[n].status == S.Executing
    ensures var (t, r) := Finish(w, n, a, answer, at);
            && t.deals.intents == w.deals.intents[n := w.deals.intents[n].(status := Landing(answer))]
            && t.deals.approvals == w.deals.approvals && t.deals.latest == w.deals.latest && t.market == w.market
            && OrderRecorded(w, t, n, a, answer, at)
            && t.record.audit == w.record.audit + (if Landing(answer) == S.Executing then []
                                                   else [Event(n, Some(S.Executing), Some(Landing(answer)))])
            && (r.Err? <==> Landing(answer) == S.Executing)
            && (r.Ok? ==> r.value.status == Landing(answer)
                          && (r.value.order.Some? <==> Landing(answer) == S.Succeeded)
                          && (r.value.order.Some? ==> t.record.orders == w.record.orders + [r.value.order.value]))
  {
    assert w.record.audit + [] == w.record.audit;
  }

  /** What the merchant is asked for and answers: the mock merchant's own checkout of the quoted cart, or another
      connector's. */
  function AnswerOf(w: World, q: Quote, shipping: bool, e: ExecuteEnv): Result<M.Outcome, Error> {
    if q.merchant == w.market.shop.name then M.Checkout(w.market.shop, q.cart, shipping, w.market.next).1
    else if q.merchant in w.env.cfg.remotes then e.checkout
    else Err(NotFound)
  }

  /** The intent and its approval once the claim has been made and the merchant has answered. */
  predicate Claimed(w: World, t: World, n: nat, a: nat, answer: Result<M.Outcome, Error>)
    requires n in w.deals.intents && a in w.deals.approvals
  {
    && t.deals.approvals == w.deals.approvals[a := w.deals.approvals[a].(status := Consumed)]
    && t.deals.intents == w.deals.intents[n := w.deals.intents[n].(status := Landing(answer))]
    && t.deals.latest == w.deals.latest
    && t.record.audit == w.record.audit + [Event(n, Some(w.deals.intents[n].status), Some(S.Executing))]
                         + (if Landing(answer) == S.Executing then []
                            else [Event(n, Some(S.Executing), Some(Landing(answer)))])
  }

  lemma {:induction false} EnterExecuting(w: World, n: nat, a: nat)
    requires n in w.deals.intents && a in w.deals.approvals
    ensures var t := Moved(WithStatus(w, a, Consumed), n, S.Executing);
            && t.deals.approvals == w.deals.approvals[a := w.deals.approvals[a].(status := Consumed)]
            && t.deals.intents == w.deals.intents[n := w.deals.intents[n].(status := S.Executing)]
            && t.deals.latest == w.deals.latest && t.record.orders == w.record.orders
            && t.record.audit == w.record.audit + [Event(n, Some(w.deals.intents[n].status), Some(S.Executing))]
            && t.market == w.market && t.env == w.env
  {
  }

  lemma {:induction false} CheckoutExactly(w: World, n: nat, a: nat, q: Quote, shipping: bool, e: ExecuteEnv)
    requires n in w.deals.intents && a in w.deals.approvals
    ensures var (t, r) := Checkout(WithStatus(w, a, Consumed), n, a, q, shipping, e);
            var answer := AnswerOf(w, q, shipping, e);
            && Claimed(w, t, n, a, answer) && OrderRecorded(w, t, n, a, answer, PlacedAt(w, q, e))
            && (r.Ok? ==> r.value.status == Landing(answer))
  {
    var c := WithStatus(w, a, Consumed);
    var u := Moved(c, n, S.Executing);
    EnterExecuting(w, n, a);
    var pi := w.deals.intents[n];
    var answer := AnswerOf(w, q, shipping, e);
    assert w.deals.intents[n := pi.(status := S.Executing)][n := pi.(status := Landing(answer))]
           == w.deals.intents[n := pi.(status := Landing(answer))];
    if q.merchant == w.market.shop.name || q.merchant in w.env.cfg.remotes {
      SettleExactly(Dealt(u, CallMerchant(c, q, shipping, e).0), n, a, answer, PlacedAt(w, q, e));
    }
  }

  /** Everything that can come of an execution: it is refused and changes nothing; the terms have drifted and both rows
      are flagged; the user's rules forbid it and the intent fails, its approval spared; the address cannot be resolved
      and nothing changes; or the approval is claimed, and the merchant's answer decides. */
  lemma {:induction false} ExecuteExactly(w: World, agent: string, n: nat, e: ExecuteEnv)
    ensures var (t, r) := ExecuteOnce(w, agent, n, e);
            if Ready(w, agent, n).Err? then t == w && r.Err?
            else
              var a := w.deals.latest[n];
              var row := w.deals.approvals[a];
              var quote := RefreshQuote(w, row.quote, e.quote);
              if quote.Err? then t == w && r == Err(quote.error)
              else if !TermsHold(w, row, quote.value) then
                Flagged(w, t, n, a) && r == Ok(ExecuteOutcome(S.ReapprovalRequired, None))
              else if PaymentForbidden(w, w.deals.intents[n].user, row.alias, quote.value) then
                Refused(w, t, n) && r == Ok(ExecuteOutcome(S.Failed, None))
              else if e.shipping.Err? then t == w && r == Err(e.shipping.error)
              else
                var answer := AnswerOf(w, quote.value, e.shipping.value, e);
                && Claimed(w, t, n, a, answer)
                && OrderRecorded(w, t, n, a, answer, PlacedAt(w, quote.value, e))
                && (r.Ok? ==> r.value.status == Landing(answer))
  {
    if Ready(w, agent, n).Ok? {
      var a := w.deals.latest[n];
      var row := w.deals.approvals[a];
      var quote := RefreshQuote(w, row.quote, e.quote);
      if quote.Ok? {
        TermsExactly(w, row, quote.value);
        RecheckExactly(w, w.deals.intents[n].user, row.alias, quote.value);
        FlagExactly(w, n, a);
        DenialExactly(w, n);
        if e.shipping.Ok? {
          CheckoutExactly(w, n, a, quote.value, e.shipping.value, e);
        }
      }
    }
  }

  /** A key that has been answered for an intent gets that answer again, and nothing happens; otherwise the execution
      happens, and its answer is remembered exactly if it is one. */
  lemma {:induction false} KeyExactly(w: World, key: string, agent: string, n: nat, e: ExecuteEnv)
    ensures var (t, r) := Execute(w, key, agent, n, e);
            if key != "" && (key, n) in w.record.outcomes then t == w && r == Ok(w.record.outcomes[(key, n)])
            else
              var (u, s) := ExecuteOnce(w, agent, n, e);
              && r == s && t.deals == u.deals && t.market == u.market && t.env == u.env
              && t.record.orders == u.record.orders && t.record.audit == u.record.audit
              && t.record.outcomes == if key != "" && s.Ok? then u.record.outcomes[(key, n) := s.value]
                                      else u.record.outcomes
  {
  }

  /** A call claims an approval. */
  predicate Claims(w: World, t: World, a: nat) {
    && a in w.deals.approvals && w.deals.approvals[a].status != Consumed
    && a in t.deals.approvals && t.deals.approvals[a].status == Consumed
  }

  /** Whenever Execute claims an approval, or places an order: the intent is APPROVED and the agent's user's own, the
      approval is its latest, APPROVED and not past its expiry, and the refreshed quote keeps to it. */
  predicate Live(w: World, agent: string, n: nat, e: ExecuteEnv, a: nat) {
    && MayAct(w, agent, ShoppingExecute, n) && w.deals.intents[n].status == S.Approved
    && !PlanUsedUp(w, w.deals.intents[n].user)
    && n in w.deals.latest && w.deals.latest[n] == a && a in w.deals.approvals
    && w.deals.approvals[a].status == Approved && w.env.now.tick <= w.deals.approvals[a].expiresAt
    && var quote := RefreshQuote(w, w.deals.approvals[a].quote, e.quote);
       && quote.Ok? && TermsHold(w, w.deals.approvals[a], quote.value)
       && !PaymentForbidden(w, w.deals.intents[n].user, w.deals.approvals[a].alias, quote.value)
       && e.shipping.Ok?
  }

  lemma {:induction false} OnceClaims(w: World, agent: string, n: nat, e: ExecuteEnv, a: nat)
    ensures Claims(w, ExecuteOnce(w, agent, n, e).0, a) <==> Live(w, agent, n, e, a)
  {
    ReadyExactly(w, agent, n);
    ExecuteExactly(w, agent, n, e);
  }

  /** Execute claims an approval exactly if it is live and the key has not been answered. */
  lemma {:induction false} ClaimsExactly(w: World, key: string, agent: string, n: nat, e: ExecuteEnv, a: nat)
    ensures Claims(w, Execute(w, key, agent, n, e).0, a)
            <==> (key == "" || (key, n) !in w.record.outcomes) && Live(w, agent, n, e, a)
  {
    KeyExactly(w, key, agent, n, e);
    OnceClaims(w, agent, n, e, a);
  }

  /** Execute places at most one order, and only under a live approval that it claims. */
  lemma {:induction false} OrdersAreLive(w: World, key: string, agent: string, n: nat, e: ExecuteEnv)
    requires Execute(w, key, agent, n, e).0.record.orders != w.record.orders
    ensures n in w.deals.latest && Live(w, agent, n, e, w.deals.latest[n])
            && w.env.now.tick <= w.deals.approvals[w.deals.latest[n]].expiresAt
    ensures var t := Execute(w, key, agent, n, e).0;
            && Claims(w, t, w.deals.latest[n]) && |t.record.orders| == |w.record.orders| + 1
            && t.record.orders[..|w.record.orders|] == w.record.orders
            && t.record.orders[|w.record.orders|].intent == n
            && t.record.orders[|w.record.orders|].approval == w.deals.latest[n]
            && t.record.orders[|w.record.orders|].user == w.deals.intents[n].user
  {
    KeyExactly(w, key, agent, n, e);
    ReadyExactly(w, agent, n);
    ExecuteExactly(w, agent, n, e);
  }

  // ----- requesting a purchase

  /** The user's rules forbid the purchase of a quote, or ask about it. */
  predicate PurchaseForbidden(w: World, pi: Intent, q: Quote) {
    var rules := if pi.user != "" && pi.user in w.env.rules then w.env.rules[pi.user] else w.env.cfg.rules;
    P.Forbids(rules, q.merchant, pi.constraints.category, q.finalPayable.minorUnits, q.finalPayable.currency,
              pi.constraints.paymentProfile, pi.constraints.deliveryProfile,
              SpendToday(w, pi.user, q.finalPayable.currency))
  }

  predicate PurchaseAsks(w: World, pi: Intent, q: Quote) {
    var rules := if pi.user != "" && pi.user in w.env.rules then w.env.rules[pi.user] else w.env.cfg.rules;
    P.AsksUser(rules, q.finalPayable.minorUnits, pi.constraints.international)
  }

  function VerdictOn(w: World, pi: Intent, q: Quote): S.State {
    if PurchaseForbidden(w, pi, q) then S.PolicyRejected
    else if PurchaseAsks(w, pi, q) then S.ApprovalRequired
    else S.Approved
  }

  /** The approval of a quote: for the intent's user and payment alias, bound to the quote's merchant, total and items,
      and good for the configured time from now. */
  function ApprovalOf(w: World, n: nat, pi: Intent, quoteId: nat, q: Quote, status: Status): Approval {
    Approval(n, quoteId, pi.user, q.merchant, q.finalPayable, pi.constraints.paymentProfile,
             CanonicalDigest(q.merchant, q.items, q.finalPayable.currency, pi.constraints.paymentProfile), status,
             w.env.now.tick + w.env.cfg.approvalTTL)
  }

  lemma {:induction false} EvaluationVerdict(w: World, pi: Intent, q: Quote)
    ensures var d := Evaluate(w, pi, q);
            d.Ok? && d.value.decision == match VerdictOn(w, pi, q)
                                         case PolicyRejected => P.Deny
                                         case ApprovalRequired => P.RequireApproval
                                         case _ => P.Allow
  {
    P.PurchaseVerdict(RulesFor(w, pi.user), PurchaseInput(pi, q, SpendToday(w, pi.user, q.finalPayable.currency)));
  }

  function StateFor(d: P.Decision): S.State {
    match d
    case Deny => S.PolicyRejected
    case RequireApproval => S.ApprovalRequired
    case Allow => S.Approved
  }

  /** The rows after a decision on an intent in POLICY_CHECK. */
  lemma {:induction false} DecidedExactly(w: World, n: nat, quoteId: nat, q: Quote, d: P.Decision)
    requires n in w.deals.intents
    ensures var t := Decided(w, n, quoteId, q, d);
            var pi, a := w.deals.intents[n], w.market.next;
            var to := StateFor(d);
            && t.deals.intents == w.deals.intents[n := pi.(status := to)]
            && t.record.audit == w.record.audit + [Event(n, Some(pi.status), Some(to))]
            && t.record.orders == w.record.orders && t.market.quotes == w.market.quotes
            && t.market.shop == w.market.shop
            && (if d == P.Deny then
                  t.deals.approvals == w.deals.approvals && t.deals.latest == w.deals.latest && t.market.next == a
                else
                  && t.deals.approvals
                     == w.deals.approvals[a := ApprovalOf(w, n, pi, quoteId, q, if d == P.Allow then Approved
                                                                                else Pending)]
                  && t.deals.latest == w.deals.latest[n := a] && t.market.next == a + 1)
  {
  }

  /** An intent that is ready to be evaluated, and the quote it has selected. */
  predicate Selected(w: World, n: nat) {
    && n in w.deals.intents && w.deals.intents[n].status == S.Quoted
    && w.deals.intents[n].selected.Some? && w.deals.intents[n].selected.value in w.market.quotes
  }

  function QuoteFor(w: World, n: nat): Quote
    requires Selected(w, n)
  {
    w.market.quotes[w.deals.intents[n].selected.value]
  }

  /** The world in which the decision on a selected quote is acted on: POLICY_CHECK, and the decision noted. */
  function Checked(w: World, n: nat): World
    requires Selected(w, n)
  {
    Noted(Moved(w, n, S.PolicyCheck), n)
  }

  lemma {:induction false} EvaluateAs(w: World, agent: string, n: nat)
    ensures var (t, d) := EvaluateAndTransition(w, agent, n);
            if MayAct(w, agent, ShoppingExecute, n) && Selected(w, n) then
              && d == Evaluate(w, w.deals.intents[n], QuoteFor(w, n)) && d.Ok?
              && t == Decided(Checked(w, n), n, w.deals.intents[n].selected.value, QuoteFor(w, n), d.value.decision)
            else t == w && d.Err?
  {
    if MayAct(w, agent, ShoppingExecute, n) {
      S.ReachedFrom(w.deals.intents[n].status, S.PolicyCheck);
      if Selected(w, n) {
        EvaluationVerdict(w, w.deals.intents[n], QuoteFor(w, n));
      }
    }
  }

  lemma {:induction false} CheckedExactly(w: World, n: nat)
    requires Selected(w, n)
    ensures var u := Checked(w, n);
            && u.deals.intents == w.deals.intents[n := w.deals.intents[n].(status := S.PolicyCheck)]
            && u.deals.approvals == w.deals.approvals && u.deals.latest == w.deals.latest
            && u.market == w.market && u.env == w.env && u.record.orders == w.record.orders
            && u.record.audit == w.record.audit + [Event(n, Some(S.Quoted), Some(S.PolicyCheck)), Event(n, None, None)]
  {
  }

  /** The intent after an evaluation is where the rules put it, with every step audited. */
  predicate EvaluatedIntent(w: World, t: World, n: nat)
    requires Selected(w, n)
  {
    var pi := w.deals.intents[n];
    var to := VerdictOn(w, pi, QuoteFor(w, n));
    && t.deals.intents == w.deals.intents[n := pi.(status := to)]
    && t.record.audit == w.record.audit + [Event(n, Some(S.Quoted), Some(S.PolicyCheck)), Event(n, None, None),
                                           Event(n, Some(S.PolicyCheck), Some(to))]
    && t.record.orders == w.record.orders && t.market.quotes == w.market.quotes
  }

  /** Unless it is forbidden, a new approval of the selected quote is the intent's latest. */
  predicate EvaluatedApproval(w: World, t: World, n: nat)
    requires Selected(w, n)
  {
    var pi, q, a := w.deals.intents[n], QuoteFor(w, n), w.market.next;
    var to := VerdictOn(w, pi, q);
    if to == S.PolicyRejected then
      t.deals.approvals == w.deals.approvals && t.deals.latest == w.deals.latest && t.market.next == a
    else
      var status := if to == S.Approved then Approved else Pending;
      && t.deals.approvals == w.deals.approvals[a := ApprovalOf(w, n, pi, pi.selected.value, q, status)]
      && t.deals.latest == w.deals.latest[n := a] && t.market.next == a + 1
  }

  predicate Evaluated(w: World, t: World, n: nat)
    requires Selected(w, n)
  {
    EvaluatedIntent(w, t, n) && EvaluatedApproval(w, t, n)
  }

  lemma {:induction false} CheckedDecidedIntent(w: World, n: nat, d: P.Decision)
    requires Selected(w, n) && VerdictOn(w, w.deals.intents[n], QuoteFor(w, n)) == StateFor(d)
    ensures EvaluatedIntent(w, Decided(Checked(w, n), n, w.deals.intents[n].selected.value, QuoteFor(w, n), d), n)
  {
    var pi, q, u := w.deals.intents[n], QuoteFor(w, n), Checked(w, n);
    CheckedExactly(w, n);
    DecidedExactly(u, n, pi.selected.value, q, d);
    var to := StateFor(d);
    assert w.deals.intents[n := pi.(status := S.PolicyCheck)][n := pi.(status := to)]
           == w.deals.intents[n := pi.(status := to)];
  }

  lemma {:induction false} CheckedDecidedApproval(w: World, n: nat, d: P.Decision)
    requires Selected(w, n) && VerdictOn(w, w.deals.intents[n], QuoteFor(w, n)) == StateFor(d)
    ensures EvaluatedApproval(w, Decided(Checked(w, n), n, w.deals.intents[n].selected.value, QuoteFor(w, n), d), n)
  {
    var pi, q, u := w.deals.intents[n], QuoteFor(w, n), Checked(w, n);
    CheckedExactly(w, n);
    DecidedExactly(u, n, pi.selected.value, q, d);
    assert forall status :: ApprovalOf(u, n, u.deals.intents[n], pi.selected.value, q, status)
                            == ApprovalOf(w, n, pi, pi.selected.value, q, status);
  }

  /** A purchase is evaluated exactly for an agent that may, on a QUOTED intent with a saved quote selected; the rules
      alone decide where it goes. */
  lemma {:induction false} EvaluateExactly(w: World, agent: string, n: nat)
    ensures var (t, d) := EvaluateAndTransition(w, agent, n);
            if MayAct(w, agent, ShoppingExecute, n) && Selected(w, n) then d.Ok? && Evaluated(w, t, n)
            else t == w && d.Err?
  {
    EvaluateAs(w, agent, n);
    if MayAct(w, agent, ShoppingExecute, n) && Selected(w, n) {
      EvaluationVerdict(w, w.deals.intents[n], QuoteFor(w, n));
      CheckedDecidedIntent(w, n, EvaluateAndTransition(w, agent, n).1.value.decision);
      CheckedDecidedApproval(w, n, EvaluateAndTransition(w, agent, n).1.value.decision);
    }
  }

  // ----- the quote, again

  /** A quote can be had again from its own merchant only: from the mock merchant while its cart is there and not empty,
      from another connector when it answers. It keeps the cart it was asked for. */
  lemma {:induction false} RefreshExactly(w: World, id: nat, remote: Result<Quote, Error>)
    ensures var r := RefreshQuote(w, id, remote);
            if id !in w.market.quotes then r == Err(NotFound)
            else
              var existing := w.market.quotes[id];
              var shop := w.market.shop;
              if existing.merchant == shop.name then
                && (r.Ok? <==> existing.cart in shop.carts && shop.carts[existing.cart].items != [])
                && (r.Ok? ==> r.value.merchant == shop.name && r.value.cart == existing.cart
                              && r.value.items == M.QuoteItems(shop.catalog, shop.carts[existing.cart].items))
              else if existing.merchant in w.env.cfg.remotes then
                && (r.Ok? <==> remote.Ok?)
                && (r.Ok? ==> r.value == Recomputed(remote.value.(cart := existing.cart)))
              else r == Err(NotFound)
  {
  }

  // ----- after the merchant's answer

  /** What the merchant says its order is, when an authentication comes back. */
  function OrderOf(w: World, merchant: string, merchantOrder: nat, remote: Result<M.MerchantOrder, Error>)
    : Result<M.MerchantOrder, Error>
  {
    if merchant == w.market.shop.name then
      if merchantOrder in w.market.shop.orders then Ok(w.market.shop.orders[merchantOrder]) else Err(NotFound)
    else remote
  }

  predicate Known(w: World, merchant: string) {
    merchant == w.market.shop.name || merchant in w.env.cfg.remotes
  }

  /** An authentication is completed exactly for an agent that may, on an intent that waits for it: a failed one fails
      the intent, a successful one records the order its merchant reports and ends in SUCCEEDED, or fails without one.
      No approval changes. */
  lemma {:induction false} AuthenticateExactly(w: World, agent: string, n: nat, merchantOrder: nat, success: bool,
                                               remote: Result<M.MerchantOrder, Error>, at: Instant)
    ensures var (t, r) := CompleteAuthentication(w, agent, n, merchantOrder, success, remote, at);
            if MayAct(w, agent, ShoppingExecute, n) && w.deals.intents[n].status == S.AuthenticationRequired
               && n in w.deals.latest && w.deals.latest[n] in w.deals.approvals then
              var pi, a := w.deals.intents[n], w.deals.latest[n];
              var merchant := w.deals.approvals[a].merchant;
              var order := OrderOf(w, merchant, merchantOrder, remote);
              if success && !Known(w, merchant) then t == w && r == Err(NotFound)
              else
                var to := if success && order.Ok? then S.Succeeded else S.Failed;
                && t.deals.intents == w.deals.intents[n := pi.(status := to)]
                && t.deals.approvals == w.deals.approvals && t.deals.latest == w.deals.latest && t.market == w.market
                && t.record.audit == w.record.audit + [Event(n, Some(S.AuthenticationRequired), Some(to))]
                && (if to == S.Succeeded then
                      var o := order.value;
                      t.record.orders == w.record.orders
                                         + [Order(n, a, pi.user, o.merchant, o.id, o.items, o.total, o.status, at)]
                    else t.record.orders == w.record.orders)
                && (r.Ok? <==> !success || order.Ok?) && (r.Ok? ==> r.value.status == to)
            else t == w && r.Err?
  {
  }

  /** The order found for an intent is the last one recorded for it. */
  lemma {:induction false} OrderIndexExactly(orders: seq<Order>, n: nat)
    ensures var k := OrderIndex(orders, n);
            && (k.None? <==> forall j | 0 <= j < |orders| :: orders[j].intent != n)
            && (k.Some? ==> forall j | k.value < j < |orders| :: orders[j].intent != n)
  {
    if orders != [] {
      OrderIndexExactly(orders[..|orders| - 1], n);
    }
  }

  /** The merchant agrees to cancel: the mock one for an order it has, another connector unless it says otherwise. */
  predicate Agrees(w: World, o: Order, remote: Option<Error>) {
    if o.merchant == w.market.shop.name then o.merchantOrder in w.market.shop.orders
    else o.merchant in w.env.cfg.remotes && remote == None
  }

  /** An order is cancelled exactly for an agent that may, when its merchant agrees: only its status changes, here and
      at the mock merchant. One that is cancelled already is reported again. */
  lemma {:induction false} CancelOrderExactly(w: World, agent: string, n: nat, remote: Option<Error>)
    ensures var (t, r) := CancelOrder(w, agent, n, remote);
            var k := OrderIndex(w.record.orders, n);
            if !MayAct(w, agent, ShoppingExecute, n) || k == None then t == w && r.Err?
            else
              var o := w.record.orders[k.value];
              var shop := w.market.shop;
              if o.status == M.Cancelled then t == w && r == Ok(o)
              else if !Agrees(w, o, remote) then t == w && r.Err?
              else
                && r == Ok(o.(status := M.Cancelled)) && t.deals == w.deals && t.env == w.env
                && t.record.orders == w.record.orders[k.value := o.(status := M.Cancelled)]
                && t.record.audit == w.record.audit + [Event(n, None, None)]
                && t.market.shop.carts == shop.carts && t.market.shop.catalog == shop.catalog
                && t.market.shop.orders
                   == if o.merchant != shop.name then shop.orders
                      else shop.orders[o.merchantOrder := shop.orders[o.merchantOrder].(status := M.Cancelled)]
  {
  }

  // ----- discovering

  /** How much of a product the first `k` wanted items ask for, by their best matches. */
  function WantedOf(items: seq<Wanted>, matches: seq<Option<string>>, k: nat, id: string): int
    requires k <= |items|
  {
    if k == 0 then 0
    else WantedOf(items, matches, k - 1, id)
         + if k <= |matches| && matches[k - 1] == Some(id) then items[k - 1].quantity else 0
  }

  /** Filling a cart fails exactly on a match that the merchant does not sell; otherwise the cart gains, of every
      product, exactly what was wanted, and no other cart and no order changes. */
  lemma {:induction false} FillExactly(shop: M.Shop, cart: nat, items: seq<Wanted>, matches: seq<Option<string>>,
                                       k: nat,
                                       id: string)
    requires k <= |items| && cart in shop.carts
    ensures var f := Fill(shop, cart, items, matches, k);
            && (f.failed
                <==> exists j | 0 <= j < k && j < |matches| :: matches[j].Some? && matches[j].value !in shop.catalog)
            && (!f.failed ==> (f.matched <==> exists j | 0 <= j < k && j < |matches| :: matches[j].Some?))
            && f.shop.name == shop.name && f.shop.catalog == shop.catalog && f.shop.orders == shop.orders
            && cart in f.shop.carts && f.shop.carts == shop.carts[cart := f.shop.carts[cart]]
            && f.shop.carts[cart].coupon == shop.carts[cart].coupon
            && (!f.failed ==> M.Holds(f.shop.carts[cart].items, id)
                              == M.Holds(shop.carts[cart].items, id) + WantedOf(items, matches, k, id))
  {
    if k > 0 {
      FillExactly(shop, cart, items, matches, k - 1, id);
      var f := Fill(shop, cart, items, matches, k - 1);
      var best := MatchOf(matches, k - 1);
      if best.Some? {
        assert k - 1 < |matches| && matches[k - 1].Some?;
        M.AddIsExact(f.shop.carts[cart].items, best.value, items[k - 1].quantity, id);
      }
    }
  }

  /** Some match that the merchant does not sell, or any at all, among the wanted items. */
  predicate Misses(catalog: map<string, int>, items: seq<Wanted>, matches: seq<Option<string>>) {
    exists j | 0 <= j < |items| && j < |matches| :: matches[j].Some? && matches[j].value !in catalog
  }

  predicate Hits(items: seq<Wanted>, matches: seq<Option<string>>) {
    exists j | 0 <= j < |items| && j < |matches| :: matches[j].Some?
  }

  /** The mock merchant quotes a new cart exactly if it sells every match and there is one: the cart then holds of every
      product what was wanted of it, with the coupon on, and no other cart and no order changes. */
  lemma {:induction false} DiscoverShopExactly(shop: M.Shop, cart: nat, items: seq<Wanted>,
                                               matches: seq<Option<string>>,
                                               id: string)
    ensures var (t, r) := DiscoverShop(shop, cart, items, matches);
            && (r.Ok? <==> !Misses(shop.catalog, items, matches) && Hits(items, matches))
            && t.name == shop.name && t.catalog == shop.catalog && t.orders == shop.orders
            && (forall c | c in shop.carts && c != cart :: c in t.carts && t.carts[c] == shop.carts[c])
            && (r.Ok? ==>
                  && cart in t.carts && t.carts[cart].coupon && r == M.QuoteOf(t, cart)
                  && M.Holds(t.carts[cart].items, id) == WantedOf(items, matches, |items|, id)
                  && r.value.merchant == shop.name && r.value.cart == cart)
  {
    var emptied := shop.(carts := shop.carts[cart := M.Cart([], false)]);
    FillExactly(emptied, cart, items, matches, |items|, id);
    FillsSomething(emptied, cart, items, matches, |items|);
    assert Upper(M.COUPON) == M.COUPON;
  }

  lemma {:induction false} FillsSomething(shop: M.Shop, cart: nat, items: seq<Wanted>, matches: seq<Option<string>>,
                                          k: nat)
    requires k <= |items| && cart in shop.carts && shop.carts[cart].items == []
    ensures var f := Fill(shop, cart, items, matches, k);
            && cart in f.shop.carts && (f.matched ==> f.shop.carts[cart].items != [])
            && (!f.failed && !f.matched ==> f.shop.carts[cart].items == [])
  {
    if k > 0 {
      FillsSomething(shop, cart, items, matches, k - 1);
    }
  }

  /** A candidate gives a quote: the mock merchant sells every match and there is one, or another registered connector
      has answered with one. */
  predicate Yields(w: World, items: seq<Wanted>, c: Candidate) {
    match c
    case FromShop(matches) => !Misses(w.market.shop.catalog, items, matches) && Hits(items, matches)
    case FromRemote(name, q) => name in w.env.cfg.remotes && q.Ok?
  }

  /** Saved quotes carry ids given out already. */
  predicate Numbered(w: World) {
    forall q | q in w.market.quotes :: q < w.market.next
  }

  /** What a discovery leaves alone. */
  predicate OnlyMarket(w: World, t: World) {
    && t.deals == w.deals && t.env == w.env && t.record.orders == w.record.orders
    && t.record.created == w.record.created
    && t.record.outcomes == w.record.outcomes
    && t.market.shop.name == w.market.shop.name && t.market.shop.catalog == w.market.shop.catalog
    && t.market.shop.orders == w.market.shop.orders
  }

  /** One connector's turn saves one new quote, or notes a failure; the quote of another connector is its answer with
      the totals worked out. */
  lemma {:induction false} DiscoverOneExactly(w: World, n: nat, c: Candidate)
    requires n in w.deals.intents
    ensures var (t, found) := DiscoverOne(w, n, c);
            && OnlyMarket(w, t) && (found <==> Yields(w, w.deals.intents[n].items, c))
            && (found ==> t.market.next > 0 && t.market.quotes.Keys == w.market.quotes.Keys + {t.market.next - 1}
                          && (c.FromRemote? ==> t.market.quotes[t.market.next - 1] == Recomputed(c.quote.value))
                          && (c.FromShop? ==> t.market.quotes[t.market.next - 1].merchant == w.market.shop.name))
            && (!found ==>
                  t.market.quotes == w.market.quotes && t.record.audit == w.record.audit + [Event(n, None, None)])
            && (Numbered(w) ==>
                  Numbered(t) && forall q | q in w.market.quotes :: t.market.quotes[q] == w.market.quotes[q])
  {
    if c.FromShop? {
      DiscoverShopExactly(w.market.shop, w.market.next, w.deals.intents[n].items, c.matches, "");
    }
  }

  lemma {:induction false} DiscoverAllExactly(w: World, n: nat, cs: seq<Candidate>)
    requires n in w.deals.intents
    ensures var (t, found) := DiscoverAll(w, n, cs);
            && OnlyMarket(w, t) && (found <==> exists c | c in cs :: Yields(w, w.deals.intents[n].items, c))
            && (Numbered(w) ==>
                  && Numbered(t)
                  && forall q | q in w.market.quotes ::
                       q in t.market.quotes && t.market.quotes[q] == w.market.quotes[q])
  {
    if cs != [] {
      var init, last := cs[..|cs| - 1], cs[|cs| - 1];
      DiscoverAllExactly(w, n, init);
      DiscoverOneExactly(DiscoverAll(w, n, init).0, n, last);
      assert forall c :: c in cs <==> c in init || c == last;
      assert Yields(DiscoverAll(w, n, init).0, w.deals.intents[n].items, last)
               == Yields(w, w.deals.intents[n].items, last);
    }
  }

  /** An intent is discovered exactly for an agent that may, from DRAFT: it is QUOTED if any candidate gave a quote, and
      has failed otherwise; saved quotes stay as they are. */
  lemma {:induction false} DiscoverExactly(w: World, agent: string, n: nat, cs: seq<Candidate>)
    ensures var (t, e) := Discover(w, agent, n, cs);
            if MayAct(w, agent, ShoppingRead, n) && w.deals.intents[n].status == S.Draft then
              var pi := w.deals.intents[n];
              var to := if exists c | c in cs :: Yields(w, pi.items, c) then S.Quoted else S.Failed;
              && e == None && t.deals.intents == w.deals.intents[n := pi.(status := to)]
              && t.deals.approvals == w.deals.approvals && t.deals.latest == w.deals.latest
              && t.record.orders == w.record.orders
              && (Numbered(w) ==> forall q | q in w.market.quotes ::
                                    q in t.market.quotes && t.market.quotes[q] == w.market.quotes[q])
            else t == w && e.Some?
  {
    if MayAct(w, agent, ShoppingRead, n) {
      var pi := w.deals.intents[n];
      S.ReachedFrom(pi.status, S.Discovering);
      var u := Moved(w, n, S.Discovering);
      DiscoverAllExactly(u, n, cs);
      assert forall c :: Yields(u, pi.items, c) == Yields(w, pi.items, c);
      assert forall to :: w.deals.intents[n := pi.(status := S.Discovering)][n := pi.(status := to)]
                          == w.deals.intents[n := pi.(status := to)];
    }
  }

  // ----- the life of an approval

  /** What an approval says besides its status and the terms it binds never changes. */
  predicate SameDeal(a: Approval, b: Approval) {
    && a.parent == b.parent && a.quote == b.quote && a.user == b.user && a.merchant == b.merchant && a.alias == b.alias
    && a.expiresAt == b.expiresAt
  }

  /** Its own user has decided on it, where it was open to that decision. */
  predicate DecidedNow(w: World, op: Op, a: nat, before: Approval, after: Approval) {
    && op.Decides? && op.approval == a && op.owner == before.user
    && match op.decision
       case Approving =>
         before.status == Pending && w.env.now.tick <= before.expiresAt && after == before.(status := Approved)
       case Rejecting => before.status in {Pending, ReapprovalRequired} && after == before.(status := Rejected)
       case Reapproving(_) =>
         before.status == ReapprovalRequired && after.status == Approved && SameDeal(before, after)
  }

  /** An execution has claimed it, live and within its terms, or flagged it because they have drifted. */
  predicate ExecutedNow(w: World, op: Op, a: nat, before: Approval, after: Approval) {
    && op.Asks? && op.request.Executing? && before.status == Approved && w.env.now.tick <= before.expiresAt
    && ((after == before.(status := Consumed) && Live(w, op.asker, op.request.intent, op.request.env, a))
        || after == before.(status := ReapprovalRequired))
  }

  /** An evaluation has created it, for its intent's selected quote. */
  predicate CreatedNow(w: World, op: Op, a: nat, after: Approval) {
    && a == w.market.next && op.Asks? && op.request.Evaluating? && Selected(w, op.request.intent)
    && var n := op.request.intent;
       var pi := w.deals.intents[n];
       var to := VerdictOn(w, pi, QuoteFor(w, n));
       && to != S.PolicyRejected
       && after
            == ApprovalOf(w, n, pi, pi.selected.value, QuoteFor(w, n), if to == S.Approved then Approved else Pending)
  }

  /** Everything that can happen to an approval in a step. */
  predicate ApprovalStep(w: World, op: Op, a: nat, t: World) {
    if a in w.deals.approvals then
      && a in t.deals.approvals
      && (t.deals.approvals[a] == w.deals.approvals[a]
          || DecidedNow(w, op, a, w.deals.approvals[a], t.deals.approvals[a])
          || ExecutedNow(w, op, a, w.deals.approvals[a], t.deals.approvals[a]))
    else a in t.deals.approvals ==> CreatedNow(w, op, a, t.deals.approvals[a])
  }

  lemma {:induction false} ShoppedApproval(w: World, agent: string, r: Request, a: nat)
    requires IsShopping(r)
    requires forall b | b in w.deals.approvals :: b < w.market.next
    ensures ApprovalStep(w, Asks(agent, r), a, Shopped(w, agent, r))
  {
    match r
    case Creating(key, user, items, c) => CreateExactly(w, key, agent, user, items, c);
    case Discovering(n, cs) => DiscoverExactly(w, agent, n, cs);
    case Selecting(n, q) => SelectExactly(w, agent, n, q);
    case Evaluating(n) => EvaluateExactly(w, agent, n);
  }

  /** What an execution can do to the approvals. */
  lemma {:induction false} ExecutedApprovals(w: World, agent: string, n: nat, e: ExecuteEnv)
    ensures var t := ExecuteOnce(w, agent, n, e).0.deals.approvals;
            || t == w.deals.approvals
            || (Ready(w, agent, n).Ok?
                && var a := w.deals.latest[n];
                   || t == w.deals.approvals[a := w.deals.approvals[a].(status := ReapprovalRequired)]
                   || (t == w.deals.approvals[a := w.deals.approvals[a].(status := Consumed)]
                       && Live(w, agent, n, e, a)))
  {
    ReadyExactly(w, agent, n);
    ExecuteExactly(w, agent, n, e);
  }

  lemma {:induction false} ExecutedApproval(w: World, agent: string, key: string, n: nat, e: ExecuteEnv, a: nat)
    ensures ApprovalStep(w, Asks(agent, Executing(key, n, e)), a, Execute(w, key, agent, n, e).0)
  {
    KeyExactly(w, key, agent, n, e);
    ReadyExactly(w, agent, n);
    ExecutedApprovals(w, agent, n, e);
  }

  lemma {:induction false} OrderedApproval(w: World, agent: string, r: Request, a: nat)
    requires !IsShopping(r)
    ensures ApprovalStep(w, Asks(agent, r), a, Ordered(w, agent, r))
  {
    match r
    case Executing(key, n, e) => ExecutedApproval(w, agent, key, n, e, a);
    case Authenticating(n, mo, ok, order, at) => AuthenticateExactly(w, agent, n, mo, ok, order, at);
    case Cancelling(n) => CancelExactly(w, agent, n);
    case CancellingOrder(n, answer) => CancelOrderExactly(w, agent, n, answer);
  }

  lemma {:induction false} DecidedApproval(w: World, user: string, b: nat, d: PurchaseFlow.Decision, a: nat)
    ensures ApprovalStep(w, Decides(user, b, d), a, DecidedBy(w, user, b, d))
  {
    match d
    case Approving => ApproveExactly(w, user, b);
    case Rejecting => RejectExactly(w, user, b);
    case Reapproving(remote) => ReapproveExactly(w, user, b, remote);
  }

  /** Whatever happens, an approval changes only by a decision of its own user that it is open to, or by an execution
      before its expiry; and comes into being only by an evaluation. */
  lemma {:induction false} ApprovalLife(w: World, op: Op, a: nat)
    requires forall b | b in w.deals.approvals :: b < w.market.next
    ensures ApprovalStep(w, op, a, Step(w, op))
  {
    match op
    case Asks(agent, r) =>
      if IsShopping(r) {
        ShoppedApproval(w, agent, r, a);
      } else {
        OrderedApproval(w, agent, r, a);
      }
    case Decides(user, b, d) => DecidedApproval(w, user, b, d, a);
    case Happens(_) =>
  }
}
