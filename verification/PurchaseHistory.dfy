/** What lies behind every approval and every order of a serial run: the decision that granted it, and the execution
    that claimed it in time. */
module PurchaseHistory {
  import opened Results
  import opened Approvals
  import opened PurchaseFlow
  import opened PurchaseInvariants
  import opened PurchaseEffects
  import PurchaseSafety
  import S = PurchaseStates

  /** The world that operation `k` of a run found. */
  function Before(w: World, ops: seq<Op>, k: nat): World
    requires k <= |ops|
  {
    Run(w, ops[..k])
  }

  lemma {:induction false} PrefixBefore(w: World, ops: seq<Op>, k: nat)
    requires ops != [] && k < |ops|
    ensures Before(w, ops[..|ops| - 1], k) == Before(w, ops, k)
  {
    assert ops[..|ops| - 1][..k] == ops[..k];
  }

  /** The last step of a run from a fresh world. */
  lemma {:induction false} LastStep(w: World, ops: seq<Op>, a: nat)
    requires Fresh(w) && ops != []
    ensures var u := Before(w, ops, |ops| - 1);
            Run(w, ops) == Step(u, ops[|ops| - 1]) && ApprovalStep(u, ops[|ops| - 1], a, Run(w, ops))
  {
    var u := Before(w, ops, |ops| - 1);
    PurchaseSafety.Reachable(w, ops[..|ops| - 1]);
    ApprovalLife(u, ops[|ops| - 1], a);
  }

  /** Operation `k` granted approval `a`: its user did, in time or again, or the user's rules when it was created. */
  ghost predicate GrantedAt(w: World, ops: seq<Op>, a: nat, k: nat) {
    && k < |ops|
    && var u, t := Before(w, ops, k), Before(w, ops, k + 1);
       && a in t.deals.approvals && t.deals.approvals[a].status == Approved
       && if a in u.deals.approvals then
            && !ops[k].Asks? && DecidedNow(u, ops[k], a, u.deals.approvals[a], t.deals.approvals[a])
          else CreatedNow(u, ops[k], a, t.deals.approvals[a])
  }

  /** Operation `k` claimed approval `a` for an intent: the approval was live, and not past its expiry. */
  ghost predicate ClaimedAt(w: World, ops: seq<Op>, a: nat, k: nat) {
    && k < |ops| && ops[k].Asks? && ops[k].request.Executing?
    && var u := Before(w, ops, k);
       && Live(u, ops[k].asker, ops[k].request.intent, ops[k].request.env, a)
       && u.env.now.tick <= u.deals.approvals[a].expiresAt
       && Claims(u, Before(w, ops, k + 1), a)
  }

  /** Every approval that is APPROVED, or has been, was granted. */
  lemma {:induction false} ApprovedWasGranted(w: World, ops: seq<Op>, a: nat) returns (k: nat)
    requires Fresh(w) && a in Run(w, ops).deals.approvals
    requires Run(w, ops).deals.approvals[a].status in {Approved, Consumed, ReapprovalRequired}
    ensures GrantedAt(w, ops, a, k)
  {
    if ops == [] {
      assert false;
    } else {
      var init, last := ops[..|ops| - 1], |ops| - 1;
      LastStep(w, ops, a);
      assert ops[..|ops|] == ops && Before(w, ops, last) == Run(w, init);
      var u := Run(w, init);
      if a in u.deals.approvals && u.deals.approvals[a].status in {Approved, Consumed, ReapprovalRequired}
         && Run(w, ops).deals.approvals[a].status != Approved {
        k := ApprovedWasGranted(w, init, a);
        EarlierGrant(w, ops, a, k);
      } else if a in u.deals.approvals && u.deals.approvals[a].status == Approved {
        k := ApprovedWasGranted(w, init, a);
        EarlierGrant(w, ops, a, k);
      } else {
        k := last;
      }
    }
  }

  lemma {:induction false} EarlierGrant(w: World, ops: seq<Op>, a: nat, k: nat)
    requires ops != [] && GrantedAt(w, ops[..|ops| - 1], a, k)
    ensures GrantedAt(w, ops, a, k)
  {
    assert ops[..|ops| - 1][..k] == ops[..k] && ops[..|ops| - 1][..k + 1] == ops[..k + 1];
  }

  lemma {:induction false} EarlierClaim(w: World, ops: seq<Op>, a: nat, k: nat)
    requires ops != [] && ClaimedAt(w, ops[..|ops| - 1], a, k)
    ensures ClaimedAt(w, ops, a, k)
  {
    assert ops[..|ops| - 1][..k] == ops[..k] && ops[..|ops| - 1][..k + 1] == ops[..k + 1];
  }

  /** Every consumed approval was claimed by one execution, while it was live. */
  lemma {:induction false} ConsumedWasLive(w: World, ops: seq<Op>, a: nat) returns (k: nat)
    requires Fresh(w) && a in Run(w, ops).deals.approvals && Run(w, ops).deals.approvals[a].status == Consumed
    ensures ClaimedAt(w, ops, a, k)
  {
    if ops == [] {
      assert false;
    } else {
      var init, last := ops[..|ops| - 1], |ops| - 1;
      LastStep(w, ops, a);
      assert ops[..|ops|] == ops && Before(w, ops, last) == Run(w, init);
      var u := Run(w, init);
      if a in u.deals.approvals && u.deals.approvals[a].status == Consumed {
        k := ConsumedWasLive(w, init, a);
        EarlierClaim(w, ops, a, k);
      } else {
        k := last;
      }
    }
  }

  /** So every order of a run was placed under an approval that was live when it was claimed, for the order's own
      intent: approved by its user or by the user's rules, in time, and within what was approved. */
  lemma {:induction false} OrdersWereLive(w: World, ops: seq<Op>, j: nat) returns (k: nat, g: nat)
    requires Fresh(w) && j < |Run(w, ops).record.orders|
    ensures var o := Run(w, ops).record.orders[j];
            ClaimedAt(w, ops, o.approval, k) && GrantedAt(w, ops, o.approval, g)
  {
    var t := Run(w, ops);
    PurchaseSafety.Reachable(w, ops);
    PurchaseSafety.OrderBelongs(t, j);
    k := ConsumedWasLive(w, ops, t.record.orders[j].approval);
    g := ApprovedWasGranted(w, ops, t.record.orders[j].approval);
  }

  /** One step's share of that. */
  lemma {:induction false} StepStays(u: World, op: Op, a: nat, t: World)
    requires ApprovalStep(u, op, a, t) && a in u.deals.approvals
    ensures a in t.deals.approvals && Stays(u.deals.approvals[a], t.deals.approvals[a])
  {
  }

  predicate Stays(a: Approval, b: Approval) {
    SameDeal(a, b) && (a.status in {Rejected, Consumed} ==> b == a)
  }

  lemma {:induction false} LastStays(w: World, ops: seq<Op>, a: nat)
    requires Fresh(w) && ops != [] && a in Run(w, ops[..|ops| - 1]).deals.approvals
    ensures a in Run(w, ops).deals.approvals
    ensures Stays(Run(w, ops[..|ops| - 1]).deals.approvals[a], Run(w, ops).deals.approvals[a])
  {
    LastStep(w, ops, a);
    StepStays(Run(w, ops[..|ops| - 1]), ops[|ops| - 1], a, Run(w, ops));
  }

  lemma {:induction false} StaysOn(a: Approval, b: Approval, c: Approval)
    requires Stays(a, b) && Stays(b, c)
    ensures Stays(a, c)
  {
  }

  /** Whose an approval is, and what it is for and until when, never changes; a rejected or consumed one never changes
      at all. */
  lemma {:induction false} ApprovalsStay(w: World, ops: seq<Op>, more: seq<Op>, a: nat)
    requires Fresh(w) && a in Run(w, ops).deals.approvals
    ensures var u, t := Run(w, ops), Run(w, ops + more);
            a in t.deals.approvals && Stays(u.deals.approvals[a], t.deals.approvals[a])
  {
    if more == [] {
      assert ops + more == ops;
    } else {
      var init := more[..|more| - 1];
      ApprovalsStay(w, ops, init, a);
      assert (ops + more)[..|ops + more| - 1] == ops + init;
      LastStays(w, ops + more, a);
      StaysOn(Run(w, ops).deals.approvals[a], Run(w, ops + init).deals.approvals[a],
              Run(w, ops + more).deals.approvals[a]);
    }
  }
}
