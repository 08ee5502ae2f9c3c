/** What lies behind every charge: the steps its caller took before it, what they read, and what they were answered.
    A history is told by the events of a schedule, and by the states they found. */
module ExecutionHistory {
  import opened Approvals
  import opened ExecutionProtocol
  import I = PurchaseStates
  import P = PaymentStates

  /** How far a caller has come on its way to a charge; 0 for a caller that is not on its way, or no longer. */
  function Stage(c: Caller): nat {
    match c
    case LoadIntent(_) => 1
    case LoadApproval(_, _) => 2
    case RefreshAndCheck(_, _, _, _) => 3
    case Claim(_, _, _, _, _) => 4
    case EnterExecuting(_, _, _, _, _) => 5
    case CallConnector(_, _, _, _, _) => 6
    case LoadPayment(_) => 1
    case LoadPaymentApproval(_, _) => 2
    case StartPreparing(_, _, _, _) => 3
    case Prepare(_, _, _, _) => 4
    case FinishPreparing(_, _, _, _) => 5
    case ClaimPayment(_, _, _, _) => 6
    case EnterProcessing(_, _, _, _) => 7
    case CallProvider(_, _, _, _) => 8
    case _ => 0
  }

  /** What a caller further on its way has kept of where it was. */
  predicate Kept(a: Caller, b: Caller) {
    && Pays(a) == Pays(b)
    && (Stage(a) > 0 && Stage(b) > 0 && !Pays(a) ==> b.intent == a.intent)
    && (Stage(a) > 0 && Stage(b) > 0 && Pays(a) ==> b.payment == a.payment)
    && (Stage(a) >= 3 && Stage(b) >= 3 ==> b.aid == a.aid && b.row == a.row)
    && (Stage(a) >= 4 && Stage(b) >= 4 && !Pays(a) ==> b.verified == a.verified)
  }

  lemma {:induction false} PaymentStage(s: Sys, c: Caller, e: Env)
    requires Pays(c)
    ensures var to := PaymentEffect(s, c, e).to;
            Stage(to) > 0 ==> Stage(c) > 0 && Stage(to) == Stage(c) + 1 && Kept(c, to)
  {
  }

  lemma {:induction false} PurchaseStage(tolerance: int, s: Sys, c: Caller, e: Env)
    requires !Pays(c) && !Decides(c)
    ensures var to := PurchaseEffect(tolerance, s, c, e).to;
            Stage(to) > 0 ==> Stage(c) > 0 && Stage(to) == Stage(c) + 1 && Kept(c, to)
  {
  }

  lemma {:induction false} DecisionStage(s: Sys, c: Caller, e: Env)
    requires Decides(c)
    ensures Stage(DecisionEffect(s, c, e).to) == 0
  {
  }

  /** One step at a time, and nobody comes back. */
  lemma {:induction false} StepStage(tolerance: int, s: Sys, c: Caller, e: Env)
    ensures var to := StepEffect(tolerance, s, c, e).to;
            Stage(to) > 0 ==> Stage(c) > 0 && Stage(to) == Stage(c) + 1 && Kept(c, to)
  {
    if !e.fails {
      if Decides(c) {
        DecisionStage(s, c, e);
      } else if Pays(c) {
        PaymentStage(s, c, e);
      } else {
        PurchaseStage(tolerance, s, c, e);
      }
    }
  }

  lemma {:induction false} KeptOn(a: Caller, b: Caller, c: Caller)
    requires Kept(a, b) && Kept(b, c) && 0 < Stage(a) <= Stage(b) <= Stage(c)
    ensures Kept(a, c)
  {
  }

  /** The caller that event `k` of a schedule moves, before it and after it. */
  function Before(tolerance: int, s: Sys, events: seq<Event>, k: nat): Sys
    requires k <= |events|
  {
    Run(tolerance, s, events[..k])
  }

  /** Event `k` moves caller `i` from one stage to the next. */
  ghost predicate Advances(tolerance: int, s: Sys, events: seq<Event>, k: nat, i: nat, stage: nat) {
    && k < |events| && events[k].Move? && events[k].who == i
    && i < |Before(tolerance, s, events, k).callers| && i < |Before(tolerance, s, events, k + 1).callers|
    && Stage(Before(tolerance, s, events, k).callers[i]) == stage
    && Stage(Before(tolerance, s, events, k + 1).callers[i]) == stage + 1
  }

  lemma {:induction false} NextCallers(tolerance: int, s: Sys, ev: Event, i: nat)
    requires i < |s.callers|
    ensures var t := Next(tolerance, s, ev);
            && |t.callers| == |s.callers|
            && t.callers[i] == if ev.Move? && ev.who == i then StepEffect(tolerance, s, s.callers[i], ev.env).to
                               else s.callers[i]
  {
  }

  lemma {:induction false} RunCallers(tolerance: int, s: Sys, events: seq<Event>)
    ensures |Run(tolerance, s, events).callers| == |s.callers|
  {
    if events != [] {
      RunCallers(tolerance, s, events[..|events| - 1]);
      var u, ev := Run(tolerance, s, events[..|events| - 1]), events[|events| - 1];
      if ev.Move? && ev.who < |u.callers| {
        NextCallers(tolerance, u, ev, ev.who);
      }
    }
  }

  /** A caller that is past a stage has advanced from it, and kept what it had there. */
  lemma {:induction false} WasAt(tolerance: int, s: Sys, events: seq<Event>, i: nat, stage: nat) returns (k: nat)
    requires i < |s.callers| && Stage(s.callers[i]) <= 1
    requires i < |Run(tolerance, s, events).callers| && 0 < stage < Stage(Run(tolerance, s, events).callers[i])
    ensures Advances(tolerance, s, events, k, i, stage)
    ensures Kept(Before(tolerance, s, events, k).callers[i], Before(tolerance, s, events, k + 1).callers[i])
    ensures Kept(Before(tolerance, s, events, k + 1).callers[i], Run(tolerance, s, events).callers[i])
  {
    if events == [] {
      assert false;
    } else {
      var init, ev := events[..|events| - 1], events[|events| - 1];
      var u := Run(tolerance, s, init);
      RunCallers(tolerance, s, init);
      NextCallers(tolerance, u, ev, i);
      assert events[..|events|] == events;
      if ev.Move? && ev.who == i {
        StepStage(tolerance, u, u.callers[i], ev.env);
      }
      if ev.Move? && ev.who == i && Stage(u.callers[i]) == stage {
        k := |events| - 1;
      } else {
        k := WasAt(tolerance, s, init, i, stage);
        assert events[..k] == init[..k] && events[..k + 1] == init[..k + 1];
        if ev.Move? && ev.who == i {
          KeptOn(Before(tolerance, s, events, k + 1).callers[i], u.callers[i], Run(tolerance, s, events).callers[i]);
        }
      }
    }
  }

  // ----- what each step found

  predicate InRange(a: int, b: int, tolerance: int) {
    b - tolerance <= a <= b + tolerance
  }

  /** The intent read APPROVED, its latest approval read APPROVED and in time, and a refreshed amount near the
      approval's that the policy check allowed. */
  ghost predicate PurchaseStep(tolerance: int, u: Sys, c: Caller, e: Env, d: Caller, stage: nat) {
    && !Pays(c) && !Pays(d) && Stage(c) == stage && Stage(d) == stage + 1
    && !e.fails
    && (stage == 1 ==> c.intent in u.intents && u.intents[c.intent] == I.Approved)
    && (stage == 2 ==> Purchase(c.intent) in u.latest && u.latest[Purchase(c.intent)] == d.aid && d.aid in u.approvals
                       && u.approvals[d.aid] == d.row && d.row.status == Approved && !e.expired)
    && (stage == 3 ==> e.check == Allowed && InRange(e.amount, d.row.amount, tolerance) && d.verified == e.amount)
    && (stage == 4 ==> d.aid in u.approvals && u.approvals[d.aid].status == Approved)
  }

  /** The intent read AUTHORIZED, its latest approval read APPROVED and in time, and a credential that was prepared. */
  ghost predicate PaymentStep(u: Sys, c: Caller, e: Env, d: Caller, stage: nat) {
    && Pays(c) && Pays(d) && Stage(c) == stage && Stage(d) == stage + 1
    && !e.fails
    && (stage == 1 ==> c.payment in u.payments && u.payments[c.payment] == P.Authorized)
    && (stage == 2 ==> Payment(c.payment) in u.latest && u.latest[Payment(c.payment)] == d.aid && d.aid in u.approvals
                       && u.approvals[d.aid] == d.row && d.row.status == Approved && !e.expired)
    && (stage == 4 ==> e.check == Allowed)
    && (stage == 6 ==> d.aid in u.approvals && u.approvals[d.aid].status == Approved)
  }

  lemma {:induction false} PurchaseStepMeans(tolerance: int, u: Sys, c: Caller, e: Env)
    requires Stage(c) > 0 && !Pays(c)
    ensures var d := StepEffect(tolerance, u, c, e).to;
            Stage(d) > 0 && !Pays(d) ==> PurchaseStep(tolerance, u, c, e, d, Stage(c))
  {
  }

  lemma {:induction false} PaymentStepMeans(tolerance: int, u: Sys, c: Caller, e: Env)
    requires Stage(c) > 0 && Pays(c)
    ensures var d := StepEffect(tolerance, u, c, e).to;
            Stage(d) > 0 && Pays(d) ==> PaymentStep(u, c, e, d, Stage(c))
  {
  }

  /** Event `k` took caller `i` past a stage of a purchase, and this is what it found. */
  ghost predicate Bought(tolerance: int, s: Sys, events: seq<Event>, k: nat, i: nat, stage: nat) {
    && Advances(tolerance, s, events, k, i, stage)
    && var u, v := Before(tolerance, s, events, k), Before(tolerance, s, events, k + 1);
       && !Pays(u.callers[i]) && !Pays(v.callers[i]) && Kept(u.callers[i], v.callers[i])
       && PurchaseStep(tolerance, u, u.callers[i], events[k].env, v.callers[i], stage)
  }

  ghost predicate PaidFor(tolerance: int, s: Sys, events: seq<Event>, k: nat, i: nat, stage: nat) {
    && Advances(tolerance, s, events, k, i, stage)
    && var u, v := Before(tolerance, s, events, k), Before(tolerance, s, events, k + 1);
       && Pays(u.callers[i]) && Pays(v.callers[i]) && Kept(u.callers[i], v.callers[i])
       && PaymentStep(u, u.callers[i], events[k].env, v.callers[i], stage)
  }

  lemma {:induction false} AdvanceStep(tolerance: int, s: Sys, events: seq<Event>, k: nat, i: nat, stage: nat)
    requires Advances(tolerance, s, events, k, i, stage)
    ensures Before(tolerance, s, events, k + 1) == Next(tolerance, Before(tolerance, s, events, k), events[k])
    ensures Before(tolerance, s, events, k + 1).callers[i]
            == StepEffect(tolerance, Before(tolerance, s, events, k), Before(tolerance, s, events, k).callers[i],
                          events[k].env).to
  {
    assert events[..k + 1][..k] == events[..k];
    NextCallers(tolerance, Before(tolerance, s, events, k), events[k], i);
  }

  lemma {:induction false} WasBought(tolerance: int, s: Sys, events: seq<Event>, i: nat, stage: nat) returns (k: nat)
    requires i < |s.callers| && Stage(s.callers[i]) <= 1 && i < |Run(tolerance, s, events).callers|
    requires 0 < stage < Stage(Run(tolerance, s, events).callers[i]) && !Pays(Run(tolerance, s, events).callers[i])
    ensures Bought(tolerance, s, events, k, i, stage)
    ensures Kept(Before(tolerance, s, events, k + 1).callers[i], Run(tolerance, s, events).callers[i])
  {
    k := WasAt(tolerance, s, events, i, stage);
    AdvanceStep(tolerance, s, events, k, i, stage);
    PurchaseStepMeans(tolerance, Before(tolerance, s, events, k), Before(tolerance, s, events, k).callers[i],
                      events[k].env);
  }

  lemma {:induction false} WasPaidFor(tolerance: int, s: Sys, events: seq<Event>, i: nat, stage: nat) returns (k: nat)
    requires i < |s.callers| && Stage(s.callers[i]) <= 1 && i < |Run(tolerance, s, events).callers|
    requires 0 < stage < Stage(Run(tolerance, s, events).callers[i]) && Pays(Run(tolerance, s, events).callers[i])
    ensures PaidFor(tolerance, s, events, k, i, stage)
    ensures Kept(Before(tolerance, s, events, k + 1).callers[i], Run(tolerance, s, events).callers[i])
  {
    k := WasAt(tolerance, s, events, i, stage);
    AdvanceStep(tolerance, s, events, k, i, stage);
    PaymentStepMeans(tolerance, Before(tolerance, s, events, k), Before(tolerance, s, events, k).callers[i],
                     events[k].env);
  }

  lemma {:induction false} PrefixBought(tolerance: int, s: Sys, events: seq<Event>, m: nat, k: nat, i: nat, stage: nat)
    requires m <= |events| && Bought(tolerance, s, events[..m], k, i, stage)
    ensures Bought(tolerance, s, events, k, i, stage)
    ensures Before(tolerance, s, events, k + 1) == Before(tolerance, s, events[..m], k + 1)
  {
    assert events[..m][..k] == events[..k] && events[..m][..k + 1] == events[..k + 1];
  }

  lemma {:induction false} PrefixPaidFor(tolerance: int, s: Sys, events: seq<Event>, m: nat, k: nat, i: nat, stage: nat)
    requires m <= |events| && PaidFor(tolerance, s, events[..m], k, i, stage)
    ensures PaidFor(tolerance, s, events, k, i, stage)
    ensures Before(tolerance, s, events, k + 1) == Before(tolerance, s, events[..m], k + 1)
  {
    assert events[..m][..k] == events[..k] && events[..m][..k + 1] == events[..k + 1];
  }

  /** The first three steps of a purchase, in their order: the intent, the approval, the check. */
  ghost predicate CheckedBy(tolerance: int, s: Sys, events: seq<Event>, i: nat, k1: nat, k2: nat, k3: nat) {
    && k1 < k2 < k3
    && Bought(tolerance, s, events, k1, i, 1) && Bought(tolerance, s, events, k2, i, 2)
    && Bought(tolerance, s, events, k3, i, 3)
    && Kept(Before(tolerance, s, events, k1 + 1).callers[i], Before(tolerance, s, events, k2).callers[i])
    && Kept(Before(tolerance, s, events, k2 + 1).callers[i], Before(tolerance, s, events, k3).callers[i])
  }

  lemma {:induction false} CheckedBefore(tolerance: int, s: Sys, events: seq<Event>, i: nat)
    returns (k1: nat, k2: nat, k3: nat)
    requires i < |s.callers| && Stage(s.callers[i]) <= 1 && i < |Run(tolerance, s, events).callers|
    requires Stage(Run(tolerance, s, events).callers[i]) >= 4 && !Pays(Run(tolerance, s, events).callers[i])
    ensures CheckedBy(tolerance, s, events, i, k1, k2, k3)
    ensures Kept(Before(tolerance, s, events, k3 + 1).callers[i], Run(tolerance, s, events).callers[i])
  {
    k3 := WasBought(tolerance, s, events, i, 3);
    k2 := WasBought(tolerance, s, events[..k3], i, 2);
    PrefixBought(tolerance, s, events, k3, k2, i, 2);
    k1 := WasBought(tolerance, s, events[..k2], i, 1);
    PrefixBought(tolerance, s, events, k2, k1, i, 1);
  }

  /** Only a Charged effect charges, and only a Won effect wins. */
  lemma {:induction false} EffectGains(u: Sys, i: nat, f: Effect)
    requires i < |u.callers|
    ensures var t := Apply(u, i, f);
            && (t.charges != u.charges ==> f.Charged? && t.charges == u.charges + [f.charge])
            && (t.wins != u.wins ==>
                  f.Won? && t.wins == u.wins + [f.aid]
                  && (f.aid in u.approvals ==>
                        t.approvals == u.approvals[f.aid := u.approvals[f.aid].(status := Consumed)]))
  {
  }

  lemma {:induction false} PurchaseEffectGains(tolerance: int, u: Sys, c: Caller, e: Env)
    requires !Pays(c)
    ensures var f := StepEffect(tolerance, u, c, e);
            && (f.Charged? ==> Stage(c) == 6 && f.charge == Charge(c.aid, c.verified))
            && (f.Won? ==> Stage(c) == 4 && f.aid == c.aid && c.aid in u.approvals
                           && u.approvals[c.aid].status == Approved)
  {
  }

  lemma {:induction false} PaymentEffectGains(tolerance: int, u: Sys, c: Caller, e: Env)
    requires Pays(c)
    ensures var f := StepEffect(tolerance, u, c, e);
            && (f.Charged? ==> Stage(c) == 8 && f.charge == Charge(c.aid, c.row.amount))
            && (f.Won? ==> Stage(c) == 6 && f.aid == c.aid && c.aid in u.approvals
                           && u.approvals[c.aid].status == Approved)
  {
  }

  /** Every step that charged, or won a claim, for a purchase: its caller had read the intent APPROVED, then the
      intent's latest approval APPROVED and in time, and then its own check of a refreshed amount near the approval's
      was answered Allowed. */
  lemma {:induction false} PurchasesWereAllowed(tolerance: int, s: Sys, events: seq<Event>, i: nat, e: Env)
    returns (n: nat, a: nat, k1: nat, k2: nat, k3: nat)
    requires Initial(s) && i < |Run(tolerance, s, events).callers| && !Pays(Run(tolerance, s, events).callers[i])
    requires var u := Run(tolerance, s, events);
             var t := Next(tolerance, u, Move(i, e));
             t.charges != u.charges || t.wins != u.wins
    ensures k1 < k2 < k3 < |events|
    ensures forall k | k == k1 || k == k2 || k == k3 :: events[k].Move? && events[k].who == i && !events[k].env.fails
    ensures var u := Before(tolerance, s, events, k1); n in u.intents && u.intents[n] == I.Approved
    ensures var u := Before(tolerance, s, events, k2);
            && Purchase(n) in u.latest && u.latest[Purchase(n)] == a && a in u.approvals
            && u.approvals[a].status == Approved && !events[k2].env.expired
            && events[k3].env.check == Allowed
            && InRange(events[k3].env.amount, u.approvals[a].amount, tolerance)
    ensures var u := Run(tolerance, s, events);
            var t := Next(tolerance, u, Move(i, e));
            && (t.charges != u.charges ==> t.charges == u.charges + [Charge(a, events[k3].env.amount)])
            && (t.wins != u.wins ==>
                  t.wins == u.wins + [a] && a in u.approvals && u.approvals[a].status == Approved
                  && t.approvals == u.approvals[a := u.approvals[a].(status := Consumed)])
  {
    var u := Run(tolerance, s, events);
    var c := u.callers[i];
    RunCallers(tolerance, s, events);
    PurchaseGains(tolerance, u, i, e);
    k1, k2, k3 := CheckedBefore(tolerance, s, events, i);
    n, a := c.intent, c.aid;
    var c1, d1 := Before(tolerance, s, events, k1).callers[i], Before(tolerance, s, events, k1 + 1).callers[i];
    var c2, d2 := Before(tolerance, s, events, k2).callers[i], Before(tolerance, s, events, k2 + 1).callers[i];
    var c3, d3 := Before(tolerance, s, events, k3).callers[i], Before(tolerance, s, events, k3 + 1).callers[i];
    KeptBack(c1, d1, c2, d2, c3, d3, c);
    PurchaseHolds(c1, c);
    PurchaseHolds(c2, c);
    PurchaseHolds(d2, c);
    PurchaseHolds(d3, c);
  }

  lemma {:induction false} PurchaseGains(tolerance: int, u: Sys, i: nat, e: Env)
    requires i < |u.callers| && !Pays(u.callers[i])
    ensures var c := u.callers[i];
            var t := Next(tolerance, u, Move(i, e));
            && (t.charges != u.charges ==> Stage(c) == 6 && t.charges == u.charges + [Charge(c.aid, c.verified)])
            && (t.wins != u.wins ==>
                  Stage(c) == 4 && t.wins == u.wins + [c.aid] && c.aid in u.approvals
                  && u.approvals[c.aid].status == Approved
                  && t.approvals == u.approvals[c.aid := u.approvals[c.aid].(status := Consumed)])
  {
    EffectGains(u, i, StepEffect(tolerance, u, u.callers[i], e));
    PurchaseEffectGains(tolerance, u, u.callers[i], e);
  }

  /** What a caller holds is what it held at an earlier stage. */
  lemma {:induction false} PurchaseHolds(a: Caller, c: Caller)
    requires Kept(a, c) && !Pays(c) && 1 <= Stage(a) <= Stage(c) && 4 <= Stage(c)
    ensures a.LoadIntent? || a.LoadApproval? || a.RefreshAndCheck? || a.Claim? || a.EnterExecuting? || a.CallConnector?
    ensures a.intent == c.intent
    ensures Stage(a) >= 3 ==> a.aid == c.aid && a.row == c.row
    ensures Stage(a) >= 4 ==> a.verified == c.verified
  {
  }

  /** What the caller holds now is what it found then. */
  lemma {:induction false} KeptBack(c1: Caller, d1: Caller, c2: Caller, d2: Caller, c3: Caller, d3: Caller, c: Caller)
    requires Kept(c1, d1) && Kept(d1, c2) && Kept(c2, d2) && Kept(d2, c3) && Kept(c3, d3) && Kept(d3, c)
    requires Stage(c1) == 1 && Stage(d1) == 2 && Stage(c2) == 2 && Stage(d2) == 3 && Stage(c3) == 3 && Stage(d3) == 4
    requires !Pays(c) && Stage(c) >= 4
    ensures Kept(c1, c) && Kept(c2, c) && Kept(d2, c) && Kept(d3, c)
  {
    KeptOn(c3, d3, c);
    KeptOn(d2, c3, c);
    KeptOn(c2, d2, c);
    KeptOn(d1, c2, c);
    KeptOn(c1, d1, c);
  }

  // ----- payments

  ghost predicate PreparedBy(tolerance: int, s: Sys, events: seq<Event>, i: nat, k1: nat, k2: nat, k4: nat) {
    && k1 < k2 < k4
    && PaidFor(tolerance, s, events, k1, i, 1) && PaidFor(tolerance, s, events, k2, i, 2)
    && PaidFor(tolerance, s, events, k4, i, 4)
    && Kept(Before(tolerance, s, events, k1 + 1).callers[i], Before(tolerance, s, events, k2).callers[i])
    && Kept(Before(tolerance, s, events, k2 + 1).callers[i], Before(tolerance, s, events, k4).callers[i])
  }

  lemma {:induction false} PreparedBefore(tolerance: int, s: Sys, events: seq<Event>, i: nat)
    returns (k1: nat, k2: nat, k4: nat)
    requires i < |s.callers| && Stage(s.callers[i]) <= 1 && i < |Run(tolerance, s, events).callers|
    requires Stage(Run(tolerance, s, events).callers[i]) >= 5 && Pays(Run(tolerance, s, events).callers[i])
    ensures PreparedBy(tolerance, s, events, i, k1, k2, k4)
    ensures Kept(Before(tolerance, s, events, k4 + 1).callers[i], Run(tolerance, s, events).callers[i])
  {
    k4 := WasPaidFor(tolerance, s, events, i, 4);
    k2 := WasPaidFor(tolerance, s, events[..k4], i, 2);
    PrefixPaidFor(tolerance, s, events, k4, k2, i, 2);
    k1 := WasPaidFor(tolerance, s, events[..k2], i, 1);
    PrefixPaidFor(tolerance, s, events, k2, k1, i, 1);
  }

  lemma {:induction false} PaymentGains(tolerance: int, u: Sys, i: nat, e: Env)
    requires i < |u.callers| && Pays(u.callers[i])
    ensures var c := u.callers[i];
            var t := Next(tolerance, u, Move(i, e));
            && (t.charges != u.charges ==> Stage(c) == 8 && t.charges == u.charges + [Charge(c.aid, c.row.amount)])
            && (t.wins != u.wins ==>
                  Stage(c) == 6 && t.wins == u.wins + [c.aid] && c.aid in u.approvals
                  && u.approvals[c.aid].status == Approved
                  && t.approvals == u.approvals[c.aid := u.approvals[c.aid].(status := Consumed)])
  {
    EffectGains(u, i, StepEffect(tolerance, u, u.callers[i], e));
    PaymentEffectGains(tolerance, u, u.callers[i], e);
  }

  lemma {:induction false} PaymentHolds(a: Caller, c: Caller)
    requires Kept(a, c) && Pays(c) && 1 <= Stage(a) <= Stage(c) && 4 <= Stage(c)
    ensures a.LoadPayment? || a.LoadPaymentApproval? || a.StartPreparing? || a.Prepare? || a.FinishPreparing?
            || a.ClaimPayment? || a.EnterProcessing? || a.CallProvider?
    ensures a.payment == c.payment
    ensures Stage(a) >= 3 ==> a.aid == c.aid && a.row == c.row
  {
  }

  lemma {:induction false} PreparedKept(c1: Caller, d1: Caller, c2: Caller, d2: Caller, c4: Caller, d4: Caller,
                                        c: Caller)
    requires Kept(c1, d1) && Kept(d1, c2) && Kept(c2, d2) && Kept(d2, c4) && Kept(c4, d4) && Kept(d4, c)
    requires Stage(c1) == 1 && Stage(d1) == 2 && Stage(c2) == 2 && Stage(d2) == 3 && Stage(c4) == 4 && Stage(d4) == 5
    requires Pays(c) && Stage(c) >= 5
    ensures Kept(c1, c) && Kept(c2, c) && Kept(d2, c)
  {
    KeptOn(c4, d4, c);
    KeptOn(d2, c4, c);
    KeptOn(c2, d2, c);
    KeptOn(d1, c2, c);
    KeptOn(c1, d1, c);
  }

  /** Every step that charged, or won a claim, for a payment: its caller had read the intent AUTHORIZED, then the
      intent's latest approval APPROVED and in time, and then got its credential; and it charges the amount of the
      approval it read. */
  lemma {:induction false} PaymentsWerePrepared(tolerance: int, s: Sys, events: seq<Event>, i: nat, e: Env)
    returns (n: nat, a: nat, k1: nat, k2: nat, k4: nat)
    requires Initial(s) && i < |Run(tolerance, s, events).callers| && Pays(Run(tolerance, s, events).callers[i])
    requires var u := Run(tolerance, s, events);
             var t := Next(tolerance, u, Move(i, e));
             t.charges != u.charges || t.wins != u.wins
    ensures k1 < k2 < k4 < |events|
    ensures forall k | k == k1 || k == k2 || k == k4 :: events[k].Move? && events[k].who == i && !events[k].env.fails
    ensures var u := Before(tolerance, s, events, k1); n in u.payments && u.payments[n] == P.Authorized
    ensures var u := Before(tolerance, s, events, k2);
            && Payment(n) in u.latest && u.latest[Payment(n)] == a && a in u.approvals
            && u.approvals[a].status == Approved && !events[k2].env.expired && events[k4].env.check == Allowed
    ensures var u := Run(tolerance, s, events);
            var t := Next(tolerance, u, Move(i, e));
            && (t.charges != u.charges ==>
                  t.charges == u.charges + [Charge(a, Before(tolerance, s, events, k2).approvals[a].amount)])
            && (t.wins != u.wins ==>
                  t.wins == u.wins + [a] && a in u.approvals && u.approvals[a].status == Approved
                  && t.approvals == u.approvals[a := u.approvals[a].(status := Consumed)])
  {
    var u := Run(tolerance, s, events);
    RunCallers(tolerance, s, events);
    PaymentGains(tolerance, u, i, e);
    k1, k2, k4 := PreparedBefore(tolerance, s, events, i);
    var c := u.callers[i];
    n, a := c.payment, c.aid;
    var c1, d1 := Before(tolerance, s, events, k1).callers[i], Before(tolerance, s, events, k1 + 1).callers[i];
    var c2, d2 := Before(tolerance, s, events, k2).callers[i], Before(tolerance, s, events, k2 + 1).callers[i];
    var c4, d4 := Before(tolerance, s, events, k4).callers[i], Before(tolerance, s, events, k4 + 1).callers[i];
    PreparedKept(c1, d1, c2, d2, c4, d4, c);
    PaymentHolds(c1, c);
    PaymentHolds(c2, c);
    PaymentHolds(d2, c);
  }

  // ----- every charge of a schedule

  /** Event `m` is a step of caller `i`, and appended this charge. */
  ghost predicate MadeAt(tolerance: int, s: Sys, events: seq<Event>, c: Charge, m: nat, i: nat) {
    && m < |events| && events[m].Move? && events[m].who == i && i < |Before(tolerance, s, events, m).callers|
    && Before(tolerance, s, events, m + 1) == Next(tolerance, Before(tolerance, s, events, m), events[m])
    && Before(tolerance, s, events, m + 1).charges == Before(tolerance, s, events, m).charges + [c]
  }

  lemma {:induction false} EarlierCharge(tolerance: int, s: Sys, events: seq<Event>, c: Charge, m: nat, i: nat)
    requires events != [] && MadeAt(tolerance, s, events[..|events| - 1], c, m, i)
    ensures MadeAt(tolerance, s, events, c, m, i)
  {
    assert events[..|events| - 1][..m] == events[..m] && events[..|events| - 1][..m + 1] == events[..m + 1];
  }

  lemma {:induction false} OneChargeAtMost(tolerance: int, u: Sys, ev: Event)
    ensures var t := Next(tolerance, u, ev);
            t.charges == u.charges
            || (ev.Move? && ev.who < |u.callers| && exists c :: t.charges == u.charges + [c])
  {
    if ev.Move? && ev.who < |u.callers| {
      EffectGains(u, ev.who, StepEffect(tolerance, u, u.callers[ev.who], ev.env));
    }
  }

  /** Every charge of a schedule was made by one step. */
  lemma {:induction false} ChargeWasMade(tolerance: int, s: Sys, events: seq<Event>, j: nat) returns (m: nat, i: nat)
    requires s.charges == [] && j < |Run(tolerance, s, events).charges|
    ensures MadeAt(tolerance, s, events, Run(tolerance, s, events).charges[j], m, i)
  {
    if events == [] {
      assert false;
    } else {
      var init, ev := events[..|events| - 1], events[|events| - 1];
      var u := Run(tolerance, s, init);
      OneChargeAtMost(tolerance, u, ev);
      assert events[..|events|] == events;
      if j < |u.charges| {
        m, i := ChargeWasMade(tolerance, s, init, j);
        EarlierCharge(tolerance, s, events, u.charges[j], m, i);
      } else {
        m, i := |events| - 1, ev.who;
      }
    }
  }

  /** The three steps that a caller must have taken for a purchase to be charged: it read the intent APPROVED, the
      intent's latest approval APPROVED and in time, and was answered Allowed on an amount near the approval's, which is
      the amount charged. */
  ghost predicate AllowedBy(tolerance: int, s: Sys, events: seq<Event>, c: Charge, i: nat, n: nat, k1: nat, k2: nat,
                            k3: nat)
  {
    && k1 < k2 < k3 < |events|
    && (forall k | k == k1 || k == k2 || k == k3 :: events[k].Move? && events[k].who == i && !events[k].env.fails)
    && (var u := Before(tolerance, s, events, k1); n in u.intents && u.intents[n] == I.Approved)
    && var u := Before(tolerance, s, events, k2);
       && Purchase(n) in u.latest && u.latest[Purchase(n)] == c.approval && c.approval in u.approvals
       && u.approvals[c.approval].status == Approved && !events[k2].env.expired
       && events[k3].env.check == Allowed && events[k3].env.amount == c.verified
       && InRange(c.verified, u.approvals[c.approval].amount, tolerance)
  }

  /** And for a payment: the intent read AUTHORIZED, its latest approval APPROVED and in time, and a credential that was
      prepared; the amount charged is the one approved. */
  ghost predicate PaidBy(tolerance: int, s: Sys, events: seq<Event>, c: Charge, i: nat, n: nat, k1: nat, k2: nat,
                         k4: nat)
  {
    && k1 < k2 < k4 < |events|
    && (forall k | k == k1 || k == k2 || k == k4 :: events[k].Move? && events[k].who == i && !events[k].env.fails)
    && (var u := Before(tolerance, s, events, k1); n in u.payments && u.payments[n] == P.Authorized)
    && var u := Before(tolerance, s, events, k2);
       && Payment(n) in u.latest && u.latest[Payment(n)] == c.approval && c.approval in u.approvals
       && u.approvals[c.approval].status == Approved && !events[k2].env.expired
       && events[k4].env.check == Allowed && c.verified == u.approvals[c.approval].amount
  }

  lemma {:induction false} AppendedIs(a: seq<Charge>, x: Charge, y: Charge)
    requires a + [x] == a + [y]
    ensures x == y
  {
    assert (a + [x])[|a|] == (a + [y])[|a|];
  }

  /** The step that made a charge, seen as the last one of its own schedule. */
  lemma {:induction false} MadeLast(tolerance: int, s: Sys, events: seq<Event>, c: Charge, m: nat, i: nat)
    requires MadeAt(tolerance, s, events, c, m, i)
    ensures var u := Run(tolerance, s, events[..m]);
            var t := Next(tolerance, u, Move(i, events[m].env));
            i < |u.callers| && t.charges == u.charges + [c] && t.charges != u.charges
  {
    assert |Run(tolerance, s, events[..m]).charges + [c]| == |Run(tolerance, s, events[..m]).charges| + 1;
  }

  lemma {:induction false} SameBefore(tolerance: int, s: Sys, events: seq<Event>, m: nat, k: nat)
    requires k <= m <= |events|
    ensures Before(tolerance, s, events[..m], k) == Before(tolerance, s, events, k)
  {
    assert events[..m][..k] == events[..k];
  }

  lemma {:induction false} LastWasAllowed(tolerance: int, s: Sys, events: seq<Event>, c: Charge, i: nat, e: Env)
    returns (n: nat, k1: nat, k2: nat, k3: nat)
    requires Initial(s) && i < |Run(tolerance, s, events).callers| && !Pays(Run(tolerance, s, events).callers[i])
    requires var u := Run(tolerance, s, events);
             var t := Next(tolerance, u, Move(i, e));
             t.charges == u.charges + [c] && t.charges != u.charges
    ensures AllowedBy(tolerance, s, events, c, i, n, k1, k2, k3)
  {
    var a;
    n, a, k1, k2, k3 := PurchasesWereAllowed(tolerance, s, events, i, e);
    AppendedIs(Run(tolerance, s, events).charges, c, Charge(a, events[k3].env.amount));
  }

  lemma {:induction false} LastWasPaid(tolerance: int, s: Sys, events: seq<Event>, c: Charge, i: nat, e: Env)
    returns (n: nat, k1: nat, k2: nat, k4: nat)
    requires Initial(s) && i < |Run(tolerance, s, events).callers| && Pays(Run(tolerance, s, events).callers[i])
    requires var u := Run(tolerance, s, events);
             var t := Next(tolerance, u, Move(i, e));
             t.charges == u.charges + [c] && t.charges != u.charges
    ensures PaidBy(tolerance, s, events, c, i, n, k1, k2, k4)
  {
    var a;
    n, a, k1, k2, k4 := PaymentsWerePrepared(tolerance, s, events, i, e);
    AppendedIs(Run(tolerance, s, events).charges, c,
               Charge(a, Before(tolerance, s, events, k2).approvals[a].amount));
  }

  lemma {:induction false} AllowedEarlier(tolerance: int, s: Sys, events: seq<Event>, m: nat, c: Charge, i: nat, n: nat,
                                          k1: nat, k2: nat, k3: nat)
    requires m <= |events| && AllowedBy(tolerance, s, events[..m], c, i, n, k1, k2, k3)
    ensures AllowedBy(tolerance, s, events, c, i, n, k1, k2, k3) && k3 < m
  {
    SameBefore(tolerance, s, events, m, k1);
    SameBefore(tolerance, s, events, m, k2);
  }

  lemma {:induction false} PaidEarlier(tolerance: int, s: Sys, events: seq<Event>, m: nat, c: Charge, i: nat, n: nat,
                                       k1: nat, k2: nat, k4: nat)
    requires m <= |events| && PaidBy(tolerance, s, events[..m], c, i, n, k1, k2, k4)
    ensures PaidBy(tolerance, s, events, c, i, n, k1, k2, k4) && k4 < m
  {
    SameBefore(tolerance, s, events, m, k1);
    SameBefore(tolerance, s, events, m, k2);
  }

  /** Every charge of every schedule was made by one step of one caller, and was allowed in the one way or paid in the
      other. */
  lemma {:induction false} ChargesWereAllowed(tolerance: int, s: Sys, events: seq<Event>, j: nat)
    returns (m: nat, i: nat, n: nat, k1: nat, k2: nat, k3: nat)
    requires Initial(s) && j < |Run(tolerance, s, events).charges|
    ensures var c := Run(tolerance, s, events).charges[j];
            && MadeAt(tolerance, s, events, c, m, i) && k3 < m
            && if Pays(Before(tolerance, s, events, m).callers[i])
                 then PaidBy(tolerance, s, events, c, i, n, k1, k2, k3)
               else AllowedBy(tolerance, s, events, c, i, n, k1, k2, k3)
  {
    m, i := ChargeWasMade(tolerance, s, events, j);
    var c := Run(tolerance, s, events).charges[j];
    MadeLast(tolerance, s, events, c, m, i);
    if Pays(Before(tolerance, s, events, m).callers[i]) {
      n, k1, k2, k3 := LastWasPaid(tolerance, s, events[..m], c, i, events[m].env);
      PaidEarlier(tolerance, s, events, m, c, i, n, k1, k2, k3);
    } else {
      n, k1, k2, k3 := LastWasAllowed(tolerance, s, events[..m], c, i, events[m].env);
      AllowedEarlier(tolerance, s, events, m, c, i, n, k1, k2, k3);
    }
  }

  // ----- being refused

  /** The answer or the row that a step found refuses the caller. */
  predicate Refused(tolerance: int, u: Sys, c: Caller, e: Env) {
    match c
    case LoadIntent(n) => n !in u.intents || u.intents[n] != I.Approved
    case LoadApproval(n, _) =>
      || Purchase(n) !in u.latest || u.latest[Purchase(n)] !in u.approvals
      || u.approvals[u.latest[Purchase(n)]].status != Approved || e.expired
    case RefreshAndCheck(_, _, _, row) => e.check != Allowed || !InRange(e.amount, row.amount, tolerance)
    case Claim(_, _, a, _, _) => a !in u.approvals || u.approvals[a].status != Approved
    case LoadPayment(n) => n !in u.payments || u.payments[n] != P.Authorized
    case LoadPaymentApproval(n, _) =>
      || Payment(n) !in u.latest || u.latest[Payment(n)] !in u.approvals
      || u.approvals[u.latest[Payment(n)]].status != Approved || e.expired
    case Prepare(_, _, _, _) => e.check != Allowed
    case ClaimPayment(_, _, a, _) => a !in u.approvals || u.approvals[a].status != Approved
    case _ => false
  }

  lemma {:induction false} RefusedStops(tolerance: int, u: Sys, c: Caller, e: Env)
    requires Refused(tolerance, u, c, e)
    ensures Stage(StepEffect(tolerance, u, c, e).to) == 0
  {
  }

  lemma {:induction false} Stopped(tolerance: int, s: Sys, events: seq<Event>, i: nat)
    requires i < |s.callers| && Stage(s.callers[i]) == 0
    ensures i < |Run(tolerance, s, events).callers| && Stage(Run(tolerance, s, events).callers[i]) == 0
  {
    if events != [] {
      var u, ev := Run(tolerance, s, events[..|events| - 1]), events[|events| - 1];
      Stopped(tolerance, s, events[..|events| - 1], i);
      NextCallers(tolerance, u, ev, i);
      if ev.Move? && ev.who == i {
        StepStage(tolerance, u, u.callers[i], ev.env);
      }
    }
  }

  /** A caller whose check was answered Drifted, NeedsApproval or Denied, or that was refused at any other step, makes
      no claim and no charge afterwards, whatever the schedule. */
  lemma {:induction false} RefusedNeverCharges(tolerance: int, u: Sys, i: nat, e: Env, after: seq<Event>, last: Env)
    requires i < |u.callers| && Refused(tolerance, u, u.callers[i], e)
    ensures var t := Run(tolerance, Next(tolerance, u, Move(i, e)), after);
            Next(tolerance, t, Move(i, last)).charges == t.charges && Next(tolerance, t, Move(i, last)).wins == t.wins
  {
    var v := Next(tolerance, u, Move(i, e));
    NextCallers(tolerance, u, Move(i, e), i);
    RefusedStops(tolerance, u, u.callers[i], e);
    Stopped(tolerance, v, after, i);
    var t := Run(tolerance, v, after);
    if Pays(t.callers[i]) {
      PaymentGains(tolerance, t, i, last);
    } else {
      PurchaseGains(tolerance, t, i, last);
    }
  }

  /** The three steps from a check onwards. */
  function ThreeMore(tolerance: int, s: Sys, i: nat, e: Env, e1: Env, e2: Env): Sys {
    Next(tolerance, Next(tolerance, Next(tolerance, s, Move(i, e)), Move(i, e1)), Move(i, e2))
  }

  /** What the other answers come to: after a drift, or where the policy asks, approval and intent are flagged for
      reapproval; after a denial the intent fails and its approval is left alone. */
  lemma {:induction false} RefusalWrites(tolerance: int, s: Sys, i: nat, n: nat, a: nat, row: Row, e: Env, e1: Env,
                                         e2: Env)
    requires i < |s.callers| && s.callers[i] == RefreshAndCheck(n, I.Approved, a, row)
    requires !e.fails && !e1.fails && !e2.fails
    requires e.check != Allowed || !InRange(e.amount, row.amount, tolerance)
    ensures var t := ThreeMore(tolerance, s, i, e, e1, e2);
            && t.wins == s.wins && t.charges == s.charges && t.grants == s.grants && t.payments == s.payments
            && (e.check != Denied || !InRange(e.amount, row.amount, tolerance) ==>
                  && t.approvals == s.approvals[a := Row(row.parent, row.amount, ReapprovalRequired)]
                  && t.intents == s.intents[n := I.ReapprovalRequired])
            && (e.check == Denied && InRange(e.amount, row.amount, tolerance) ==>
                  t.approvals == s.approvals && t.intents == s.intents[n := I.Failed])
  {
    var u := Next(tolerance, s, Move(i, e));
    if e.check == Denied && InRange(e.amount, row.amount, tolerance) {
      DenialWrites(tolerance, u, i, n, e1, e2);
    } else {
      FlagWrites(tolerance, u, i, n, a, row, e1, e2);
    }
  }

  /** One stored state, and what is left to store. */
  lemma {:induction false} StoresNext(tolerance: int, u: Sys, i: nat, n: nat, mine: I.State, to: I.State,
                                      more: seq<I.State>, e: Env)
    requires i < |u.callers| && u.callers[i] == StoreIntent(n, mine, [to] + more) && !e.fails
    requires I.CanTransition(mine, to)
    ensures Next(tolerance, u, Move(i, e))
            == u.(callers := u.callers[i := StoreIntent(n, to, more)], intents := u.intents[n := to])
  {
    assert ([to] + more)[1..] == more;
  }

  lemma {:induction false} DenialWrites(tolerance: int, u: Sys, i: nat, n: nat, e1: Env, e2: Env)
    requires i < |u.callers| && u.callers[i] == StoreIntent(n, I.Approved, [I.Executing, I.Failed])
    requires !e1.fails && !e2.fails
    ensures var t := Next(tolerance, Next(tolerance, u, Move(i, e1)), Move(i, e2));
            && t.wins == u.wins && t.charges == u.charges && t.grants == u.grants && t.payments == u.payments
            && t.approvals == u.approvals && t.intents == u.intents[n := I.Failed]
  {
    assert [I.Executing, I.Failed] == [I.Executing] + [I.Failed] && [I.Failed] == [I.Failed] + [];
    StoresNext(tolerance, u, i, n, I.Approved, I.Executing, [I.Failed], e1);
    StoresNext(tolerance, Next(tolerance, u, Move(i, e1)), i, n, I.Executing, I.Failed, [], e2);
    assert u.intents[n := I.Executing][n := I.Failed] == u.intents[n := I.Failed];
  }

  lemma {:induction false} FlagWrites(tolerance: int, u: Sys, i: nat, n: nat, a: nat, row: Row, e1: Env, e2: Env)
    requires i < |u.callers| && u.callers[i] == FlagApproval(n, I.Approved, a, row) && !e1.fails && !e2.fails
    ensures var t := Next(tolerance, Next(tolerance, u, Move(i, e1)), Move(i, e2));
            && t.wins == u.wins && t.charges == u.charges && t.grants == u.grants && t.payments == u.payments
            && t.approvals == u.approvals[a := Row(row.parent, row.amount, ReapprovalRequired)]
            && t.intents == u.intents[n := I.ReapprovalRequired]
  {
    var v := Next(tolerance, u, Move(i, e1));
    assert v.callers[i] == StoreIntent(n, I.Approved, [I.ReapprovalRequired]);
  }

  // ----- who grants

  /** Every write that set an approval to APPROVED: it created the row so, or its caller had read the row, PENDING and
      in time to approve it, or awaiting reapproval to reapprove it at the amount then quoted. */
  lemma {:induction false} GrantsWereDecided(tolerance: int, s: Sys, events: seq<Event>, i: nat, e: Env)
    returns (a: nat, amount: int, k: nat)
    requires Initial(s) && i < |Run(tolerance, s, events).callers|
    requires var u := Run(tolerance, s, events); Next(tolerance, u, Move(i, e)).grants != u.grants
    ensures var u := Run(tolerance, s, events);
            var t := Next(tolerance, u, Move(i, e));
            && t.grants == u.grants + [Grant(a, amount)] && a in t.approvals
            && t.approvals[a].status == Approved && t.approvals[a].amount == amount
            && (a !in u.approvals || Decided(tolerance, s, events, k, i, a, amount))
  {
    var u := Run(tolerance, s, events);
    RunCallers(tolerance, s, events);
    GrantingCaller(tolerance, u, i, e);
    a, amount, k := u.callers[i].aid, u.callers[i].row.amount, 0;
    if u.callers[i].WriteDecision? {
      k := DecisionWasRead(tolerance, s, events, i);
    }
  }

  lemma {:induction false} GrantingCaller(tolerance: int, u: Sys, i: nat, e: Env)
    requires i < |u.callers| && Next(tolerance, u, Move(i, e)).grants != u.grants
    ensures var c := u.callers[i];
            var t := Next(tolerance, u, Move(i, e));
            && ((c.Create? && c.aid !in u.approvals) || (c.WriteDecision? && c.verdict != RejectIt))
            && t.grants == u.grants + [Grant(c.aid, c.row.amount)] && c.aid in t.approvals
            && t.approvals[c.aid].status == Approved && t.approvals[c.aid].amount == c.row.amount
  {
  }

  /** Event `k` is a caller's reading of an approval it may decide. */
  ghost predicate Decided(tolerance: int, s: Sys, events: seq<Event>, k: nat, i: nat, a: nat, amount: int) {
    && k < |events| && events[k].Move? && events[k].who == i
    && var u := Before(tolerance, s, events, k);
       && a in u.approvals
       && ((u.approvals[a].status == Pending && !events[k].env.expired && amount == u.approvals[a].amount)
           || (u.approvals[a].status == ReapprovalRequired && amount == events[k].env.amount))
  }

  lemma {:induction false} ReadingStep(tolerance: int, u: Sys, c: Caller, e: Env)
    ensures var d := StepEffect(tolerance, u, c, e).to;
            d.WriteDecision? && d.verdict != RejectIt ==>
              && c.LoadDecided? && c.aid == d.aid && d.aid in u.approvals
              && ((u.approvals[d.aid].status == Pending && !e.expired && d.row.amount == u.approvals[d.aid].amount)
                  || (u.approvals[d.aid].status == ReapprovalRequired && d.row.amount == e.amount))
  {
  }

  lemma {:induction false} DecisionWasRead(tolerance: int, s: Sys, events: seq<Event>, i: nat) returns (k: nat)
    requires i < |s.callers| && !s.callers[i].WriteDecision? && i < |Run(tolerance, s, events).callers|
    requires var c := Run(tolerance, s, events).callers[i]; c.WriteDecision? && c.verdict != RejectIt
    ensures var c := Run(tolerance, s, events).callers[i]; Decided(tolerance, s, events, k, i, c.aid, c.row.amount)
  {
    if events == [] {
      assert false;
    } else {
      var init, ev := events[..|events| - 1], events[|events| - 1];
      var u := Run(tolerance, s, init);
      RunCallers(tolerance, s, init);
      NextCallers(tolerance, u, ev, i);
      if ev.Move? && ev.who == i {
        ReadingStep(tolerance, u, u.callers[i], ev.env);
        k := |events| - 1;
      } else {
        k := DecisionWasRead(tolerance, s, init, i);
        assert events[..k] == init[..k];
      }
    }
  }
}
