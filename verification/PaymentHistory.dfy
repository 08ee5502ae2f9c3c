/** What lies behind every payment of a serial run: the decision that granted its approval, and the execution that
    claimed it in time. */
module PaymentHistory {
  import opened Results
  import opened Approvals
  import opened PaymentFlow
  import opened PaymentEffects
  import PaymentSafety
  import S = PaymentStates

  function Before(w: World, ops: seq<Op>, k: nat): World
    requires k <= |ops|
  {
    Run(w, ops[..k])
  }

  /** Approvals carry ids given out already. */
  predicate Numbered(w: World) {
    forall a | a in w.deals.approvals :: a < w.deals.next
  }

  lemma {:induction false} AskedNumbers(w: World, agent: string, ask: Ask)
    requires Numbered(w)
    ensures Numbered(Asked(w, agent, ask))
  {
    match ask
    case Creating(q) => CreateExactly(w, agent, q);
    case Executing(key, n, scenario) =>
      KeyExactly(w, key, agent, n, scenario);
      ExecutedApprovals(w, key, agent, n, scenario);
    case Revoking(n) => RevokeExactly(w, agent, n);
  }

  lemma {:induction false} StepNumbers(w: World, op: Op)
    requires Numbered(w)
    ensures Numbered(Step(w, op))
  {
    match op
    case Asks(agent, ask) => AskedNumbers(w, agent, ask);
    case Approves(user, b) => ApproveExactly(w, user, b);
    case Rejects(user, b) => RejectExactly(w, user, b);
    case _ =>
  }

  lemma {:induction false} RunNumbers(w: World, ops: seq<Op>)
    requires Fresh(w)
    ensures Numbered(Run(w, ops))
  {
    if ops != [] {
      RunNumbers(w, ops[..|ops| - 1]);
      StepNumbers(Run(w, ops[..|ops| - 1]), ops[|ops| - 1]);
    }
  }

  /** The last step of a run from fresh stores. */
  lemma {:induction false} LastStep(w: World, ops: seq<Op>, a: nat)
    requires Fresh(w) && ops != []
    ensures var u := Before(w, ops, |ops| - 1);
            Run(w, ops) == Step(u, ops[|ops| - 1]) && ApprovalStep(u, ops[|ops| - 1], a, Run(w, ops))
  {
    RunNumbers(w, ops[..|ops| - 1]);
    ApprovalLife(Before(w, ops, |ops| - 1), ops[|ops| - 1], a);
  }

  /** Operation `k` granted approval `a`: its own user did, in time, or the active rules when it was created. */
  ghost predicate GrantedAt(w: World, ops: seq<Op>, a: nat, k: nat) {
    && k < |ops|
    && var u, t := Before(w, ops, k), Before(w, ops, k + 1);
       && a in t.deals.approvals && t.deals.approvals[a].status == Approved
       && if a in u.deals.approvals then
            && ops[k] == Approves(u.deals.approvals[a].user, a) && u.deals.approvals[a].status == Pending
            && u.env.now <= u.deals.approvals[a].expiresAt
          else
            && ops[k].Asks? && ops[k].ask.Creating? && MayCreate(u, ops[k].asker, ops[k].ask.request)
            && var user := u.env.agents[ops[k].asker].user;
               var active := ActiveRules(u, u.env.tenants[user], user);
               active.Some? && VerdictOn(active.value.rules, ops[k].ask.request) == S.Authorized
  }

  /** Operation `k` claimed approval `a` for its own intent, APPROVED and not past its expiry. */
  ghost predicate ClaimedAt(w: World, ops: seq<Op>, a: nat, k: nat) {
    && k < |ops| && ops[k].Asks? && ops[k].ask.Executing?
    && var u := Before(w, ops, k);
       && Payable(u, ops[k].asker, ops[k].ask.intent) && u.deals.latest[ops[k].ask.intent] == a
       && u.env.now <= u.deals.approvals[a].expiresAt
       && Claims(u, Before(w, ops, k + 1), a)
  }

  lemma {:induction false} EarlierGrant(w: World, ops: seq<Op>, a: nat, k: nat)
    requires ops != [] && GrantedAt(w, ops[..|ops| - 1], a, k)
    ensures GrantedAt(w, ops, a, k)
  {
    assert ops[..|ops| - 1][..k] == ops[..k] && ops[..|ops| - 1][..k + 1] == ops[..k + 1];
  }

  lemma {:induction false} EarlierClaim(w: World, ops: seq<Op>, a: nat, k: nat)
    requires ops != [] && ClaimedAt(w, ops[..|ops| - 1], a, k)
    ensures ClaimedAt(w, ops, a, k)
  {
    assert ops[..|ops| - 1][..k] == ops[..k] && ops[..|ops| - 1][..k + 1] == ops[..k + 1];
  }

  /** Every approval that is APPROVED, or has been claimed, was granted. */
  lemma {:induction false} ApprovedWasGranted(w: World, ops: seq<Op>, a: nat) returns (k: nat)
    requires Fresh(w) && a in Run(w, ops).deals.approvals
             && Run(w, ops).deals.approvals[a].status in {Approved, Consumed}
    ensures GrantedAt(w, ops, a, k)
  {
    if ops == [] {
      assert false;
    } else {
      var init, last := ops[..|ops| - 1], |ops| - 1;
      LastStep(w, ops, a);
      assert ops[..|ops|] == ops && Before(w, ops, last) == Run(w, init);
      var u := Run(w, init);
      if a in u.deals.approvals && u.deals.approvals[a].status in {Approved, Consumed} {
        k := ApprovedWasGranted(w, init, a);
        EarlierGrant(w, ops, a, k);
      } else {
        k := last;
      }
    }
  }

  lemma {:induction false} LastClaims(w: World, ops: seq<Op>, a: nat)
    requires Fresh(w) && ops != [] && a in Run(w, ops).deals.approvals
    requires Run(w, ops).deals.approvals[a].status == Consumed
    requires a in Run(w, ops[..|ops| - 1]).deals.approvals ==>
               Run(w, ops[..|ops| - 1]).deals.approvals[a].status != Consumed
    ensures ClaimedAt(w, ops, a, |ops| - 1)
  {
    LastStep(w, ops, a);
    assert ops[..|ops|] == ops && Before(w, ops, |ops| - 1) == Run(w, ops[..|ops| - 1]);
  }

  /** Every consumed approval was claimed in time. */
  lemma {:induction false} ConsumedWasLive(w: World, ops: seq<Op>, a: nat) returns (k: nat)
    requires Fresh(w) && a in Run(w, ops).deals.approvals && Run(w, ops).deals.approvals[a].status == Consumed
    ensures ClaimedAt(w, ops, a, k)
  {
    if ops == [] {
      assert false;
    } else {
      var init := ops[..|ops| - 1];
      var u := Run(w, init);
      if a in u.deals.approvals && u.deals.approvals[a].status == Consumed {
        k := ConsumedWasLive(w, init, a);
        EarlierClaim(w, ops, a, k);
      } else {
        LastClaims(w, ops, a);
        k := |ops| - 1;
      }
    }
  }

  /** So every receipt of a run was paid under an approval of the intent's own, granted by its user in time or by the
      rules, and claimed in time. */
  lemma {:induction false} ReceiptsWereLive(w: World, ops: seq<Op>, owner: string -> Option<nat>, n: nat)
    returns (k: nat, g: nat)
    requires Fresh(w) && forall j | 0 <= j < |ops| :: PaymentSafety.Respects(ops[j], owner)
    requires n in Run(w, ops).deals.intents && Run(w, ops).deals.intents[n].receipt.Some?
    ensures var t := Run(w, ops);
            n in t.deals.latest && ClaimedAt(w, ops, t.deals.latest[n], k) && GrantedAt(w, ops, t.deals.latest[n], g)
  {
    PaymentSafety.SuccessIsOnePayment(w, ops, owner, n);
    k := ConsumedWasLive(w, ops, Run(w, ops).deals.latest[n]);
    g := ApprovedWasGranted(w, ops, Run(w, ops).deals.latest[n]);
  }

  lemma {:induction false} LastStays(w: World, ops: seq<Op>, a: nat)
    requires Fresh(w) && ops != [] && a in Run(w, ops[..|ops| - 1]).deals.approvals
    ensures a in Run(w, ops).deals.approvals
    ensures Stays(Run(w, ops[..|ops| - 1]).deals.approvals[a], Run(w, ops).deals.approvals[a])
  {
    LastStep(w, ops, a);
  }

  predicate Stays(a: Approval, b: Approval) {
    SameDeal(a, b) && (a.status in {Rejected, Consumed} ==> b == a)
  }

  lemma {:induction false} StaysOn(a: Approval, b: Approval, c: Approval)
    requires Stays(a, b) && Stays(b, c)
    ensures Stays(a, c)
  {
  }

  /** An approval never changes but in its status, and a rejected or consumed one never changes at all. */
  lemma {:induction false} ApprovalsStay(w: World, ops: seq<Op>, more: seq<Op>, a: nat)
    requires Fresh(w) && a in Run(w, ops).deals.approvals
    ensures var u, t := Run(w, ops), Run(w, ops + more);
            a in t.deals.approvals && Stays(u.deals.approvals[a], t.deals.approvals[a])
  {
    if more == [] {
      assert ops + more == ops;
    } else {
      var init := more[..|more| - 1];
      ApprovalsStay(w, ops, init, a);
      assert (ops + more)[..|ops + more| - 1] == ops + init;
      LastStays(w, ops + more, a);
      StaysOn(Run(w, ops).deals.approvals[a], Run(w, ops + init).deals.approvals[a],
              Run(w, ops + more).deals.approvals[a]);
    }
  }
}
