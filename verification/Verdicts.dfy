/** What the rules decide about a purchase and about a payment, end to end: from the stored rows to the state the
    intent is left in. */
module Verdicts {
  import opened Results
  import opened Approvals
  import opened Quotes
  import P = Policy
  import F = PurchaseFlow
  import S = PurchaseStates
  import G = PaymentFlow
  import T = PaymentStates
  import V = PolicySets

  /** Requesting a purchase of the selected quote leaves the intent POLICY_REJECTED exactly when the user's rules
      forbid it, awaiting approval exactly when they ask, and APPROVED otherwise; in the last two cases with a new
      approval of that very quote. */
  lemma {:induction false} PurchaseVerdict(w: F.World, agent: string, n: nat)
    requires F.EvaluateAndTransition(w, agent, n).1.Ok?
    ensures n in w.deals.intents && w.deals.intents[n].selected.Some?
            && w.deals.intents[n].selected.value in w.market.quotes
    ensures var t := F.EvaluateAndTransition(w, agent, n).0;
            var pi := w.deals.intents[n];
            var c, q, r := pi.constraints, w.market.quotes[pi.selected.value], F.RulesFor(w, pi.user);
            var forbidden := P.Forbids(r, q.merchant, c.category, q.finalPayable.minorUnits, q.finalPayable.currency,
                                       c.paymentProfile,
                                       c.deliveryProfile, F.SpendToday(w, pi.user, q.finalPayable.currency));
            var asks := P.AsksUser(r, q.finalPayable.minorUnits, c.international);
            && n in t.deals.intents
            && t.deals.intents[n].status
               == (if forbidden then S.PolicyRejected else if asks then S.ApprovalRequired else S.Approved)
            && (forbidden ==> t.deals.approvals == w.deals.approvals)
            && (!forbidden ==>
                  n in t.deals.latest && t.deals.latest[n] == w.market.next && w.market.next in t.deals.approvals
                  && OfQuote(t.deals.approvals[w.market.next], n, pi, q, if asks then Pending else Approved)
                  && t.deals.approvals[w.market.next].expiresAt == w.env.now.tick + w.env.cfg.approvalTTL)
  {
    var pi := w.deals.intents[n];
    var q := w.market.quotes[pi.selected.value];
    P.PurchaseVerdict(F.RulesFor(w, pi.user),
                      F.PurchaseInput(pi, q, F.SpendToday(w, pi.user, q.finalPayable.currency)));
  }

  /** An approval of a quote, for its intent's user and payment alias. */
  predicate OfQuote(a: Approval, n: nat, pi: F.Intent, q: Quote, status: Status) {
    && a.parent == n && a.user == pi.user && a.merchant == q.merchant && a.amount == q.finalPayable
    && a.alias == pi.constraints.paymentProfile
    && Some(a.quote) == pi.selected && a.status == status
    && a.itemsHash == CanonicalDigest(q.merchant, q.items, q.finalPayable.currency, a.alias)
  }

  /** A new payment intent is left DENIED exactly when the active rules of its user forbid it, awaiting approval
      exactly when they ask, and AUTHORIZED otherwise. */
  lemma {:induction false} PaymentVerdict(w: G.World, agent: string, q: G.Request)
    requires G.Create(w, agent, q).1.Ok?
    ensures agent in w.env.agents && w.env.agents[agent].user in w.env.tenants
    ensures var (t, id) := G.Create(w, agent, q);
            var user := w.env.agents[agent].user;
            var active := V.Effective(w.env.policies, V.Owner(w.env.tenants[user], Some(user)));
            && id.value in t.deals.intents && active.Ok?
            && t.deals.intents[id.value].user == user && t.deals.intents[id.value].request == q
            && t.deals.intents[id.value].status
               == (if P.Forbids(active.value.rules, q.merchant, q.category, q.amount, q.currency, q.alias, "", 0)
                     then T.Denied
                   else if P.AsksUser(active.value.rules, q.amount, q.international) then T.ApprovalRequired
                   else T.Authorized)
  {
    var user := w.env.agents[agent].user;
    var pi := G.Intent(w.env.tenants[user], user, q, T.Draft, "", None);
    var active := V.Effective(w.env.policies, V.Owner(pi.tenant, Some(user)));
    P.PurchaseVerdict(active.value.rules, G.PolicyInput(pi));
  }
}
