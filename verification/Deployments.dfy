/** The theorems about runs, stated of the service objects themselves: whatever a new deployment is asked to do, and
    in whatever order. */
module Deployments {
  import opened Results
  import opened AuditTrails
  import C = CommerceServices
  import F = PurchaseFlow
  import S = PurchaseStates
  import PurchaseSafety
  import Y = PaymentServices
  import G = PaymentFlow
  import T = PaymentStates
  import V = PaymentSafety

  /** After any operations, the stores of the purchase services agree with each other, and the audit log of every
      intent leads, legally, from DRAFT to the status stored for it. */
  method ServePurchases(s: C.Services, ops: seq<F.Op>)
    requires F.Fresh(s.View()) && forall op | op in ops :: C.Priced(op)
    modifies s, s.shop
    ensures s.View() == F.Run(old(s.View()), ops)
    ensures forall n | n in s.intents :: PurchaseSafety.StoresAgree(s.View(), n)
    ensures forall n | n in s.intents ::
              var es := StateEvents(s.audit, n);
              Chained(S.CanTransition, S.Draft, es) && es[|es| - 1].next == Some(s.intents[n].status)
  {
    ghost var start := s.View();
    s.ServeAll(ops);
    forall n | n in s.intents
      ensures PurchaseSafety.StoresAgree(s.View(), n)
      ensures var es := StateEvents(s.audit, n);
              Chained(S.CanTransition, S.Draft, es) && es[|es| - 1].next == Some(s.intents[n].status)
    {
      PurchaseSafety.StoresAlwaysAgree(start, ops, n);
      PurchaseSafety.AuditReplays(start, ops, n);
    }
  }

  /** After any operations that keep each intent's idempotency keys to itself, a payment intent has SUCCEEDED exactly
      if it has a receipt, and the receipt is for one recorded payment of the requested amount. */
  method ServePayments(s: Y.Services, ops: seq<G.Op>, ghost owner: string -> Option<nat>)
    requires G.Fresh(s.View()) && forall k | 0 <= k < |ops| :: V.Respects(ops[k], owner)
    modifies s, s.provider, s.policySets
    ensures s.View() == G.Run(old(s.View()), ops)
    ensures forall n | n in s.intents ::
              && (s.intents[n].receipt.Some? <==> s.intents[n].status == T.Succeeded)
              && (s.intents[n].receipt.Some? ==>
                    && n in s.latest && s.latest[n] in s.approvals
                    && V.Backed(s.provider.View(), s.intents[n].user, s.intents[n].request,
                                Some(s.approvals[s.latest[n]].expiresAt), s.intents[n].receipt.value))
  {
    ghost var start := s.View();
    s.ServeAll(ops);
    forall n | n in s.intents
      ensures s.intents[n].receipt.Some? <==> s.intents[n].status == T.Succeeded
      ensures s.intents[n].receipt.Some? ==>
                && n in s.latest && s.latest[n] in s.approvals
                && V.Backed(s.provider.View(), s.intents[n].user, s.intents[n].request,
                            Some(s.approvals[s.latest[n]].expiresAt), s.intents[n].receipt.value)
    {
      V.SuccessIsOnePayment(start, ops, owner, n);
    }
  }
}
