/** What a charge owes to the grants before it, and what it takes to stop one. An executor reads its intent and its
    approval once and works on its copies from then on; so a later grant, or a cancellation of the intent, reaches it
    only through the claim. */
module ExecutionTerms {
  import opened Results
  import opened Approvals
  import opened ExecutionProtocol
  import I = PurchaseStates
  import P = PaymentStates

  // ----- the grant in force

  function LastGrant(g: seq<Grant>, a: nat): Option<int> {
    if g == [] then None
    else if g[|g| - 1].approval == a then Some(g[|g| - 1].amount)
    else LastGrant(g[..|g| - 1], a)
  }

  lemma {:induction false} LastAppended(g: seq<Grant>, x: Grant, a: nat)
    ensures LastGrant(g + [x], a) == if x.approval == a then Some(x.amount) else LastGrant(g, a)
  {
    assert (g + [x])[..|g|] == g;
  }

  /** An APPROVED row carries the amount of the last grant. */
  ghost predicate InForce(s: Sys) {
    forall a | a in s.approvals && s.approvals[a].status == Approved ::
      LastGrant(s.grants, a) == Some(s.approvals[a].amount)
  }

  lemma {:induction false} NextInForce(tolerance: int, s: Sys, ev: Event)
    requires InForce(s)
    ensures InForce(Next(tolerance, s, ev)) && |Next(tolerance, s, ev).callers| == |s.callers|
  {
    if ev.Move? && ev.who < |s.callers| {
      var f := StepEffect(tolerance, s, s.callers[ev.who], ev.env);
      StepLawful(tolerance, s, s.callers[ev.who], ev.env);
      ApplyInForce(s, ev.who, f);
    }
  }

  lemma {:induction false} ApplyInForce(s: Sys, i: nat, f: Effect)
    requires i < |s.callers| && InForce(s) && Lawful(s, s.callers[i], f)
    ensures InForce(Apply(s, i, f)) && |Apply(s, i, f).callers| == |s.callers|
  {
    if f.PutGrant? || f.Insert? {
      forall a
        ensures LastGrant(s.grants + [Grant(f.aid, f.row.amount)], a)
                == if f.aid == a then Some(f.row.amount) else LastGrant(s.grants, a)
      {
        LastAppended(s.grants, Grant(f.aid, f.row.amount), a);
      }
    }
  }

  lemma {:induction false} RunInForce(tolerance: int, s: Sys, events: seq<Event>)
    requires InForce(s)
    ensures InForce(Run(tolerance, s, events)) && |Run(tolerance, s, events).callers| == |s.callers|
  {
    if events != [] {
      RunInForce(tolerance, s, events[..|events| - 1]);
      NextInForce(tolerance, Run(tolerance, s, events[..|events| - 1]), events[|events| - 1]);
    }
  }

  /** While nothing grants, the last grant stays the last. */
  lemma {:induction false} GrantsSince(tolerance: int, s: Sys, events: seq<Event>, a: nat)
    ensures var t := Run(tolerance, s, events);
            && GrantsOf(s.grants, a) <= GrantsOf(t.grants, a)
            && (GrantsOf(s.grants, a) == GrantsOf(t.grants, a) ==> LastGrant(s.grants, a) == LastGrant(t.grants, a))
  {
    if events != [] {
      var u, ev := Run(tolerance, s, events[..|events| - 1]), events[|events| - 1];
      GrantsSince(tolerance, s, events[..|events| - 1], a);
      if ev.Move? && ev.who < |u.callers| {
        var f := StepEffect(tolerance, u, u.callers[ev.who], ev.env);
        if f.PutGrant? || f.Insert? {
          GrantAppended(u.grants, Grant(f.aid, f.row.amount), a);
          LastAppended(u.grants, Grant(f.aid, f.row.amount), a);
        }
      }
    }
  }

  /** Executing on a copy of an approval, for a purchase or a payment. */
  predicate ForPurchase(c: Caller) {
    c.RefreshAndCheck? || c.FlagApproval? || c.Claim? || c.EnterExecuting? || c.CallConnector?
  }

  predicate ForPayment(c: Caller) {
    c.StartPreparing? || c.Prepare? || c.FinishPreparing? || c.ClaimPayment? || c.EnterProcessing? || c.CallProvider?
  }

  predicate Executes(c: Caller) {
    ForPurchase(c) || ForPayment(c)
  }

  /** Still executing on this copy, or past it. */
  predicate OnCopy(c: Caller, aid: nat, row: Row) {
    c.Done? || c.StoreIntent? || c.StorePayment? || (Executes(c) && c.aid == aid && c.row == row)
  }

  lemma {:induction false} StaysOnCopy(tolerance: int, s: Sys, events: seq<Event>, i: nat, aid: nat, row: Row)
    requires i < |s.callers| && OnCopy(s.callers[i], aid, row)
    ensures i < |Run(tolerance, s, events).callers| && OnCopy(Run(tolerance, s, events).callers[i], aid, row)
  {
    if events != [] {
      var u, ev := Run(tolerance, s, events[..|events| - 1]), events[|events| - 1];
      StaysOnCopy(tolerance, s, events[..|events| - 1], i, aid, row);
      NextOnCopy(tolerance, u, ev, i, aid, row);
    }
  }

  lemma {:induction false} NextOnCopy(tolerance: int, s: Sys, ev: Event, i: nat, aid: nat, row: Row)
    requires i < |s.callers| && OnCopy(s.callers[i], aid, row)
    ensures i < |Next(tolerance, s, ev).callers| && OnCopy(Next(tolerance, s, ev).callers[i], aid, row)
  {
    if ev.Move? && ev.who == i {
      StepOnCopy(tolerance, s, s.callers[i], ev.env, aid, row);
    }
  }

  lemma {:induction false} StepOnCopy(tolerance: int, s: Sys, c: Caller, e: Env, aid: nat, row: Row)
    requires OnCopy(c, aid, row)
    ensures OnCopy(StepEffect(tolerance, s, c, e).to, aid, row)
  {
  }

  lemma {:induction false} StepCharges(tolerance: int, s: Sys, c: Caller, e: Env, g: seq<Grant>)
    requires tolerance >= 0 && CallerBacked(tolerance, g, c)
    ensures var f := StepEffect(tolerance, s, c, e);
            f.Charged? ==>
              Executes(c) && f.charge.approval == c.aid && Within(f.charge.verified, c.row.amount, tolerance)
  {
  }

  lemma {:induction false} CopyInForce(tolerance: int, u: Sys, i: nat)
    requires i < |u.callers| && Executes(u.callers[i]) && InForce(u) && Terms(tolerance, u)
    requires u.callers[i].aid in u.approvals && u.approvals[u.callers[i].aid] == u.callers[i].row
    ensures LastGrant(u.grants, u.callers[i].aid) == Some(u.callers[i].row.amount)
  {
    assert CallerBacked(tolerance, u.grants, u.callers[i]);
  }

  lemma {:induction false} ChargesCopy(tolerance: int, u: Sys, i: nat, events: seq<Event>, e: Env)
    requires tolerance >= 0 && Terms(tolerance, u) && i < |u.callers| && Executes(u.callers[i])
    requires LastGrant(u.grants, u.callers[i].aid) == Some(u.callers[i].row.amount)
    requires GrantsOf(Run(tolerance, u, events).grants, u.callers[i].aid) == GrantsOf(u.grants, u.callers[i].aid)
    ensures var a := u.callers[i].aid;
            var t := Run(tolerance, u, events);
            i < |t.callers| &&
            var f := StepEffect(tolerance, t, t.callers[i], e);
            f.Charged? ==> f.charge.approval == a && LastGrant(t.grants, a).Some?
                           && Within(f.charge.verified, LastGrant(t.grants, a).value, tolerance)
  {
    var c := u.callers[i];
    var t := Run(tolerance, u, events);
    RunTerms(tolerance, u, events);
    GrantsSince(tolerance, u, events, c.aid);
    StaysOnCopy(tolerance, u, events, i, c.aid, c.row);
    StepCharges(tolerance, t, t.callers[i], e, t.grants);
  }

  /** A caller about to claim, and the amount it will charge if it wins. */
  predicate Claims(c: Caller) {
    c.Claim? || c.ClaimPayment?
  }

  function ToCharge(c: Caller): int
    requires Claims(c)
  {
    if c.Claim? then c.verified else c.row.amount
  }

  /** Past a won claim on `aid`, with `amount` to charge, or past the charge. */
  predicate OnClaim(c: Caller, aid: nat, amount: int) {
    || c.Done? || c.StoreIntent? || c.StorePayment?
    || ((c.EnterExecuting? || c.CallConnector?) && c.aid == aid && c.verified == amount)
    || ((c.EnterProcessing? || c.CallProvider?) && c.aid == aid && c.row.amount == amount)
  }

  lemma {:induction false} StepOnClaim(tolerance: int, s: Sys, c: Caller, e: Env, aid: nat, amount: int)
    requires OnClaim(c, aid, amount)
    ensures var f := StepEffect(tolerance, s, c, e);
            OnClaim(f.to, aid, amount) && (f.Charged? ==> f.charge == Charge(aid, amount))
  {
  }

  lemma {:induction false} StaysOnClaim(tolerance: int, s: Sys, events: seq<Event>, i: nat, aid: nat, amount: int)
    requires i < |s.callers| && OnClaim(s.callers[i], aid, amount)
    ensures i < |Run(tolerance, s, events).callers| && OnClaim(Run(tolerance, s, events).callers[i], aid, amount)
  {
    if events != [] {
      var u, ev := Run(tolerance, s, events[..|events| - 1]), events[|events| - 1];
      StaysOnClaim(tolerance, s, events[..|events| - 1], i, aid, amount);
      if ev.Move? && ev.who == i {
        StepOnClaim(tolerance, u, u.callers[i], ev.env, aid, amount);
      }
    }
  }

  /** The claim of an APPROVED row is won, and leaves the grants alone. */
  lemma {:induction false} ClaimIsWon(tolerance: int, u: Sys, i: nat, e: Env)
    requires i < |u.callers| && Claims(u.callers[i]) && Open(u, u.callers[i].aid) == 1 && !e.fails
    ensures var v := Next(tolerance, u, Move(i, e));
            && i < |v.callers| && OnClaim(v.callers[i], u.callers[i].aid, ToCharge(u.callers[i]))
            && v.grants == u.grants
  {
  }

  /** What a caller that wins its claim goes on to charge: the amount it verified, on the grant whose row it has just
      claimed, and so within tolerance of that grant exactly if it is within tolerance of the amount in that row, as
      the claim could have checked. It is still the last grant at the charge unless another one has followed. */
  lemma {:induction false} ClaimDecides(tolerance: int, s: Sys, before: seq<Event>, i: nat, e: Env, after: seq<Event>,
                                        last: Env)
    requires Initial(s)
    requires var u := Run(tolerance, s, before);
             && i < |u.callers| && Claims(u.callers[i]) && Open(u, u.callers[i].aid) == 1 && !e.fails
    ensures var u := Run(tolerance, s, before);
            var c := u.callers[i];
            var t := Run(tolerance, Next(tolerance, u, Move(i, e)), after);
            && LastGrant(u.grants, c.aid) == Some(u.approvals[c.aid].amount) && i < |t.callers|
            && var f := StepEffect(tolerance, t, t.callers[i], last);
               f.Charged? ==>
                 && f.charge.approval == c.aid
                 && (Within(f.charge.verified, LastGrant(u.grants, c.aid).value, tolerance)
                     <==> Within(ToCharge(c), u.approvals[c.aid].amount, tolerance))
                 && (GrantsOf(t.grants, c.aid) == GrantsOf(u.grants, c.aid) ==>
                       LastGrant(t.grants, c.aid) == LastGrant(u.grants, c.aid))
  {
    var u := Run(tolerance, s, before);
    var c := u.callers[i];
    RunInForce(tolerance, s, before);
    ClaimIsWon(tolerance, u, i, e);
    ClaimedCharges(tolerance, Next(tolerance, u, Move(i, e)), after, i, c.aid, ToCharge(c), last);
  }

  lemma {:induction false} ClaimedCharges(tolerance: int, v: Sys, after: seq<Event>, i: nat, aid: nat, amount: int,
                                          last: Env)
    requires i < |v.callers| && OnClaim(v.callers[i], aid, amount)
    ensures var t := Run(tolerance, v, after);
            && i < |t.callers|
            && (var f := StepEffect(tolerance, t, t.callers[i], last); f.Charged? ==> f.charge == Charge(aid, amount))
            && (GrantsOf(t.grants, aid) == GrantsOf(v.grants, aid) ==>
                  LastGrant(t.grants, aid) == LastGrant(v.grants, aid))
  {
    var t := Run(tolerance, v, after);
    StaysOnClaim(tolerance, v, after, i, aid, amount);
    StepOnClaim(tolerance, t, t.callers[i], last, aid, amount);
    GrantsSince(tolerance, v, after, aid);
  }

  /** A charge is within tolerance of the last grant of its approval if nothing granted the approval since the caller
      took its copy: the copy is that grant's row, and the amount verified was checked against it. */
  lemma {:induction false} ChargesLastGrant(tolerance: int, s: Sys, before: seq<Event>, i: nat, after: seq<Event>,
                                            e: Env)
    requires Initial(s) && tolerance >= 0
    requires var u := Run(tolerance, s, before);
             && i < |u.callers| && Executes(u.callers[i])
             && u.callers[i].aid in u.approvals && u.approvals[u.callers[i].aid] == u.callers[i].row
    requires var u := Run(tolerance, s, before);
             var t := Run(tolerance, u, after);
             GrantsOf(t.grants, u.callers[i].aid) == GrantsOf(u.grants, u.callers[i].aid)
    ensures var a := Run(tolerance, s, before).callers[i].aid;
            var t := Run(tolerance, Run(tolerance, s, before), after);
            i < |t.callers| &&
            var f := StepEffect(tolerance, t, t.callers[i], e);
            f.Charged? ==> f.charge.approval == a && LastGrant(t.grants, a).Some?
                           && Within(f.charge.verified, LastGrant(t.grants, a).value, tolerance)
  {
    var u := Run(tolerance, s, before);
    var c := u.callers[i];
    RunInForce(tolerance, s, before);
    RunTerms(tolerance, s, before);
    CopyInForce(tolerance, u, i);
    ChargesCopy(tolerance, u, i, after, e);
  }

  // ----- approvals and callers stay with their intent

  ghost predicate Linked(s: Sys) {
    && LatestLinked(s)
    && (forall i | 0 <= i < |s.callers| :: LinkedCaller(s, s.callers[i]))
  }

  ghost predicate LatestLinked(s: Sys) {
    forall p | p in s.latest :: s.latest[p] in s.approvals && s.approvals[s.latest[p]].parent == p
  }

  ghost predicate LinkedCaller(s: Sys, c: Caller) {
    && (Executes(c) || c.WriteDecision? ==> c.aid in s.approvals && s.approvals[c.aid].parent == c.row.parent)
    && (ForPurchase(c) ==> c.row.parent == Purchase(c.intent))
    && (ForPayment(c) ==> c.row.parent == Payment(c.payment))
  }

  /** What is written keeps every approval with its parent. */
  ghost predicate KeepsParents(s: Sys, f: Effect) {
    && (f.PutRow? || f.PutGrant? ==> f.aid in s.approvals && f.row.parent == s.approvals[f.aid].parent)
    && (f.Insert? ==> f.aid !in s.approvals)
  }

  lemma {:induction false} StepLinked(tolerance: int, s: Sys, c: Caller, e: Env)
    requires LinkedCaller(s, c) && LatestLinked(s)
    ensures var f := StepEffect(tolerance, s, c, e); LinkedCaller(s, f.to) && KeepsParents(s, f)
  {
    if Decides(c) {
      DecisionLinked(s, c, e);
    } else if Pays(c) {
      PaymentLinked(s, c, e);
    } else {
      PurchaseLinked(tolerance, s, c, e);
    }
  }

  lemma {:induction false} DecisionLinked(s: Sys, c: Caller, e: Env)
    requires LinkedCaller(s, c)
    ensures var f := DecisionEffect(s, c, e); LinkedCaller(s, f.to) && KeepsParents(s, f)
  {
  }

  lemma {:induction false} PaymentLinked(s: Sys, c: Caller, e: Env)
    requires LinkedCaller(s, c) && LatestLinked(s)
    ensures var f := PaymentEffect(s, c, e); LinkedCaller(s, f.to) && KeepsParents(s, f)
  {
  }

  lemma {:induction false} PurchaseLinked(tolerance: int, s: Sys, c: Caller, e: Env)
    requires LinkedCaller(s, c) && LatestLinked(s)
    ensures var f := PurchaseEffect(tolerance, s, c, e); LinkedCaller(s, f.to) && KeepsParents(s, f)
  {
  }

  lemma {:induction false} ApplyLinked(s: Sys, i: nat, f: Effect)
    requires i < |s.callers| && Linked(s) && LinkedCaller(s, f.to) && KeepsParents(s, f)
    ensures Linked(Apply(s, i, f))
    ensures forall a | a in s.approvals ::
              a in Apply(s, i, f).approvals && Apply(s, i, f).approvals[a].parent == s.approvals[a].parent
  {
  }

  lemma {:induction false} NextLinked(tolerance: int, s: Sys, ev: Event)
    requires Linked(s)
    ensures Linked(Next(tolerance, s, ev))
    ensures var t := Next(tolerance, s, ev);
            forall a | a in s.approvals :: a in t.approvals && t.approvals[a].parent == s.approvals[a].parent
  {
    if ev.Move? && ev.who < |s.callers| {
      var c := s.callers[ev.who];
      assert LinkedCaller(s, c);
      StepLinked(tolerance, s, c, ev.env);
      ApplyLinked(s, ev.who, StepEffect(tolerance, s, c, ev.env));
    } else {
      var t := Next(tolerance, s, ev);
      assert forall c :: LinkedCaller(t, c) == LinkedCaller(s, c);
    }
  }

  lemma {:induction false} RunLinked(tolerance: int, s: Sys, events: seq<Event>)
    requires Linked(s)
    ensures Linked(Run(tolerance, s, events))
  {
    if events != [] {
      RunLinked(tolerance, s, events[..|events| - 1]);
      NextLinked(tolerance, Run(tolerance, s, events[..|events| - 1]), events[|events| - 1]);
    }
  }

  // ----- what it takes to stop a purchase or a payment

  /** A write that is still to come could leave the intent where APPROVED can be reached from. */
  predicate Reopens(mine: I.State, next: seq<I.State>) {
    mine !in I.AFTER_EXECUTING && exists k | 0 <= k < |next| :: next[k] !in I.AFTER_EXECUTING
  }

  predicate ReopensPayment(its: P.State, after: seq<P.State>) {
    its !in P.AFTER_PREPARING && exists k | 0 <= k < |after| :: after[k] !in P.AFTER_PREPARING
  }

  /** A caller that holds a copy of the intent with which it could still charge, or bring it back. */
  predicate HoldsLiveCopy(c: Caller, p: Parent) {
    || (c.Create? && c.row.parent == p)
    || (p.Purchase? && (c.LoadApproval? || ForPurchase(c)) && c.intent == p.id)
    || (p.Payment? && (c.LoadPaymentApproval? || ForPayment(c)) && c.payment == p.id)
    || (c.StoreIntent? && p == Purchase(c.intent) && Reopens(c.mine, c.next))
    || (c.StorePayment? && p == Payment(c.payment) && ReopensPayment(c.its, c.after))
  }

  /** CANCELLED or REVOKED, or in any other state from which APPROVED and AUTHORIZED cannot be reached. */
  predicate IsClosed(s: Sys, p: Parent) {
    match p
    case Purchase(n) => n in s.intents ==> s.intents[n] in I.AFTER_EXECUTING
    case Payment(n) => n in s.payments ==> s.payments[n] in P.AFTER_PREPARING
  }

  /** The intent is closed, and no caller holds a copy of it from before. */
  ghost predicate Settled(s: Sys, p: Parent) {
    IsClosed(s, p) && forall i | 0 <= i < |s.callers| :: !HoldsLiveCopy(s.callers[i], p)
  }

  /** No other service brings the intent back by writing a copy of its own. */
  predicate LeavesSettled(ev: Event, p: Parent) {
    && (ev.OtherIntentWrite? && p == Purchase(ev.intent) ==> ev.state in I.AFTER_EXECUTING)
    && (ev.OtherPaymentWrite? && p == Payment(ev.payment) ==> ev.paymentState in P.AFTER_PREPARING)
  }

  /** The step leaves the intent closed, and its caller without a live copy of it. */
  ghost predicate Harmless(f: Effect, p: Parent) {
    && !HoldsLiveCopy(f.to, p)
    && (f.PutIntent? && p == Purchase(f.intent) ==> f.state in I.AFTER_EXECUTING)
    && (f.PutPayment? && p == Payment(f.payment) ==> f.paymentState in P.AFTER_PREPARING)
  }

  lemma {:induction false} StepSettled(tolerance: int, s: Sys, c: Caller, e: Env, p: Parent)
    requires !HoldsLiveCopy(c, p) && IsClosed(s, p)
    ensures Harmless(StepEffect(tolerance, s, c, e), p)
  {
    if e.fails {
    } else if Decides(c) {
      DecisionSettled(s, c, e, p);
    } else if Pays(c) {
      PaymentSettled(s, c, e, p);
    } else {
      PurchaseSettled(tolerance, s, c, e, p);
    }
  }

  lemma {:induction false} DecisionSettled(s: Sys, c: Caller, e: Env, p: Parent)
    requires !HoldsLiveCopy(c, p) && IsClosed(s, p)
    ensures Harmless(DecisionEffect(s, c, e), p)
  {
  }

  lemma {:induction false} PaymentSettled(s: Sys, c: Caller, e: Env, p: Parent)
    requires !HoldsLiveCopy(c, p) && IsClosed(s, p)
    ensures Harmless(PaymentEffect(s, c, e), p)
  {
    if c.StorePayment? && p == Payment(c.payment) && c.after != [] {
      assert c.after[0] in P.AFTER_PREPARING || c.its in P.AFTER_PREPARING;
      assert forall k | 0 <= k < |c.after[1..]| :: c.after[1..][k] == c.after[k + 1];
    }
  }

  lemma {:induction false} PurchaseSettled(tolerance: int, s: Sys, c: Caller, e: Env, p: Parent)
    requires !HoldsLiveCopy(c, p) && IsClosed(s, p)
    ensures Harmless(PurchaseEffect(tolerance, s, c, e), p)
  {
    if c.StoreIntent? && p == Purchase(c.intent) && c.next != [] {
      assert c.next[0] in I.AFTER_EXECUTING || c.mine in I.AFTER_EXECUTING;
      assert forall k | 0 <= k < |c.next[1..]| :: c.next[1..][k] == c.next[k + 1];
    }
  }

  lemma {:induction false} NextSettled(tolerance: int, s: Sys, ev: Event, p: Parent)
    requires Settled(s, p) && LeavesSettled(ev, p)
    ensures Settled(Next(tolerance, s, ev), p)
  {
    if ev.Move? && ev.who < |s.callers| {
      StepSettled(tolerance, s, s.callers[ev.who], ev.env, p);
    }
  }

  /** A charge on an approval of an intent is made by a caller that holds a live copy of the intent. */
  lemma {:induction false} ChargerHoldsCopy(tolerance: int, s: Sys, c: Caller, e: Env, p: Parent)
    requires LinkedCaller(s, c) && !HoldsLiveCopy(c, p)
    ensures var f := StepEffect(tolerance, s, c, e);
            f.Charged? ==> f.charge.approval in s.approvals && s.approvals[f.charge.approval].parent != p
  {
  }

  lemma {:induction false} NextCharges(tolerance: int, s: Sys, ev: Event, p: Parent, a: nat)
    requires Linked(s) && Settled(s, p) && a in s.approvals && s.approvals[a].parent == p
    ensures ChargesOf(Next(tolerance, s, ev).charges, a) == ChargesOf(s.charges, a)
  {
    if ev.Move? && ev.who < |s.callers| {
      var c := s.callers[ev.who];
      var f := StepEffect(tolerance, s, c, ev.env);
      ChargerHoldsCopy(tolerance, s, c, ev.env, p);
      if f.Charged? {
        ChargeAppended(s.charges, f.charge, a);
      }
    }
  }

  lemma {:induction false} SettledIsNeverCharged(tolerance: int, s: Sys, events: seq<Event>, p: Parent, a: nat)
    requires Linked(s) && Settled(s, p) && a in s.approvals && s.approvals[a].parent == p
    requires forall k | 0 <= k < |events| :: LeavesSettled(events[k], p)
    ensures var t := Run(tolerance, s, events);
            && ChargesOf(t.charges, a) == ChargesOf(s.charges, a) && Linked(t) && Settled(t, p)
            && a in t.approvals && t.approvals[a].parent == p
  {
    if events != [] {
      var init, ev := events[..|events| - 1], events[|events| - 1];
      assert forall k | 0 <= k < |init| :: init[k] == events[k];
      SettledIsNeverCharged(tolerance, s, init, p, a);
      NextSettled(tolerance, Run(tolerance, s, init), ev, p);
      NextLinked(tolerance, Run(tolerance, s, init), ev);
      NextCharges(tolerance, Run(tolerance, s, init), ev, p, a);
    }
  }

  /** Once a purchase is cancelled, or a payment cancelled or revoked, and nobody holds a copy of the intent from
      before, no schedule whatever charges any approval of it again, or brings it back. */
  lemma {:induction false} CancelledIsNeverCharged(tolerance: int, s: Sys, before: seq<Event>, after: seq<Event>,
                                                   p: Parent, a: nat)
    requires Initial(s) && Settled(Run(tolerance, s, before), p)
    requires var u := Run(tolerance, s, before); a in u.approvals && u.approvals[a].parent == p
    requires forall k | 0 <= k < |after| :: LeavesSettled(after[k], p)
    ensures var u := Run(tolerance, s, before);
            var t := Run(tolerance, u, after);
            ChargesOf(t.charges, a) == ChargesOf(u.charges, a) && IsClosed(t, p)
  {
    RunLinked(tolerance, s, before);
    SettledIsNeverCharged(tolerance, Run(tolerance, s, before), after, p, a);
  }

  // ----- when one executor goes on to charge

  function OpenFor(s: Sys, p: Parent): bool {
    p in s.latest && Open(s, s.latest[p]) == 1
  }

  /** What decides whether a caller can go on to charge by itself. The intent's row counts only before it is read. */
  predicate MayCharge(s: Sys, c: Caller) {
    match c
    case LoadIntent(n) => n in s.intents && s.intents[n] == I.Approved && OpenFor(s, Purchase(n))
    case LoadApproval(n, mine) => I.CanTransition(mine, I.Executing) && OpenFor(s, Purchase(n))
    case RefreshAndCheck(_, mine, a, _) => I.CanTransition(mine, I.Executing) && Open(s, a) == 1
    case Claim(_, mine, a, _, _) => I.CanTransition(mine, I.Executing) && Open(s, a) == 1
    case EnterExecuting(_, mine, _, _, _) => I.CanTransition(mine, I.Executing)
    case CallConnector(_, _, _, _, _) => true
    case LoadPayment(n) => n in s.payments && s.payments[n] == P.Authorized && OpenFor(s, Payment(n))
    case LoadPaymentApproval(n, its) => P.CanTransition(its, P.CredentialPreparing) && OpenFor(s, Payment(n))
    case StartPreparing(_, its, a, _) => P.CanTransition(its, P.CredentialPreparing) && Open(s, a) == 1
    case Prepare(_, its, a, _) => P.CanTransition(its, P.ReadyToExecute) && Open(s, a) == 1
    case FinishPreparing(_, its, a, _) => P.CanTransition(its, P.ReadyToExecute) && Open(s, a) == 1
    case ClaimPayment(_, its, a, _) => P.CanTransition(its, P.Processing) && Open(s, a) == 1
    case EnterProcessing(_, its, _, _) => P.CanTransition(its, P.Processing)
    case CallProvider(_, _, _, _) => true
    case _ => false
  }

  /** How many steps are left to the charge. */
  function StepsLeft(c: Caller): nat {
    match c
    case LoadIntent(_) => 6
    case LoadApproval(_, _) => 5
    case RefreshAndCheck(_, _, _, _) => 4
    case Claim(_, _, _, _, _) => 3
    case EnterExecuting(_, _, _, _, _) => 2
    case CallConnector(_, _, _, _, _) => 1
    case LoadPayment(_) => 8
    case LoadPaymentApproval(_, _) => 7
    case StartPreparing(_, _, _, _) => 6
    case Prepare(_, _, _, _) => 5
    case FinishPreparing(_, _, _, _) => 4
    case ClaimPayment(_, _, _, _) => 3
    case EnterProcessing(_, _, _, _) => 2
    case CallProvider(_, _, _, _) => 1
    case _ => 0
  }

  /** Steps of one caller alone. */
  predicate Solo(events: seq<Event>, i: nat) {
    forall k | 0 <= k < |events| :: events[k].Move? && events[k].who == i
  }

  /** The step charges nothing, and does not get the caller anywhere near a charge. */
  ghost predicate Futile(s: Sys, f: Effect) {
    && !f.Charged? && !MayCharge(s, f.to)
    && (f.PutRow? || f.PutGrant? || f.Insert? || f.Won? ==>
          StepsLeft(f.to) == 0 || f.to.EnterExecuting? || f.to.EnterProcessing?)
    && (f.PutIntent? || f.PutPayment? ==> !f.to.LoadIntent? && !f.to.LoadPayment?)
  }

  lemma {:induction false} StepIsFutile(tolerance: int, s: Sys, c: Caller, e: Env)
    requires !MayCharge(s, c)
    ensures Futile(s, StepEffect(tolerance, s, c, e))
  {
    if Decides(c) {
      assert Futile(s, DecisionEffect(s, c, e));
    } else if Pays(c) {
      PaymentIsFutile(s, c, e);
    } else {
      PurchaseIsFutile(tolerance, s, c, e);
    }
  }

  lemma {:induction false} PaymentIsFutile(s: Sys, c: Caller, e: Env)
    requires !MayCharge(s, c) && Pays(c)
    ensures Futile(s, PaymentEffect(s, c, e))
  {
  }

  lemma {:induction false} PurchaseIsFutile(tolerance: int, s: Sys, c: Caller, e: Env)
    requires !MayCharge(s, c)
    ensures Futile(s, PurchaseEffect(tolerance, s, c, e))
  {
  }

  lemma {:induction false} FutileApplied(s: Sys, i: nat, f: Effect)
    requires i < |s.callers| && Futile(s, f)
    ensures var t := Apply(s, i, f);
            t.charges == s.charges && |t.callers| == |s.callers| && t.callers[i] == f.to && !MayCharge(t, f.to)
  {
    if (f.PutRow? || f.PutGrant? || f.Insert? || f.Won?) && !f.to.EnterExecuting? && !f.to.EnterProcessing? {
      assert StepsLeft(f.to) == 0;
    }
  }

  lemma {:induction false} StepCannotCharge(tolerance: int, s: Sys, i: nat, e: Env)
    requires i < |s.callers| && !MayCharge(s, s.callers[i])
    ensures var t := Next(tolerance, s, Move(i, e));
            t.charges == s.charges && |t.callers| == |s.callers| && !MayCharge(t, t.callers[i])
  {
    StepIsFutile(tolerance, s, s.callers[i], e);
    FutileApplied(s, i, StepEffect(tolerance, s, s.callers[i], e));
  }

  lemma {:induction false} CannotCharge(tolerance: int, s: Sys, events: seq<Event>, i: nat)
    requires i < |s.callers| && !MayCharge(s, s.callers[i]) && Solo(events, i)
    ensures var t := Run(tolerance, s, events);
            t.charges == s.charges && |t.callers| == |s.callers| && !MayCharge(t, t.callers[i])
  {
    if events != [] {
      var init := events[..|events| - 1];
      assert forall k | 0 <= k < |init| :: init[k] == events[k];
      CannotCharge(tolerance, s, init, i);
      StepCannotCharge(tolerance, Run(tolerance, s, init), i, events[|events| - 1].env);
    }
  }

  lemma {:induction false} RunFirst(tolerance: int, s: Sys, ev: Event, events: seq<Event>)
    ensures Run(tolerance, s, [ev] + events) == Run(tolerance, Next(tolerance, s, ev), events)
  {
    var all := [ev] + events;
    if events == [] {
      assert all == [ev] && all[..0] == [];
      assert Run(tolerance, s, []) == s;
    } else {
      assert all[..|all| - 1] == [ev] + events[..|events| - 1];
      RunFirst(tolerance, s, ev, events[..|events| - 1]);
    }
  }

  /** What the world answers when nothing goes wrong. */
  function Smoothly(c: Caller): Env {
    Env(false, false, if c.RefreshAndCheck? then c.row.amount else 0, Allowed, I.Failed, P.Failed)
  }

  predicate AtCall(c: Caller) {
    c.CallConnector? || c.CallProvider?
  }

  /** The step brings the caller closer to its charge. */
  ghost predicate Onward(s: Sys, c: Caller, f: Effect) {
    && (f.Go? || f.Won? || f.PutIntent? || f.PutPayment?) && StepsLeft(f.to) < StepsLeft(c)
    && (f.Won? ==> f.to.EnterExecuting? || f.to.EnterProcessing?) && (f.PutIntent? || f.PutPayment? ==> !Loads(f.to))
    && MayCharge(s, f.to)
  }

  predicate Loads(c: Caller) {
    c.LoadIntent? || c.LoadPayment?
  }

  lemma {:induction false} PurchaseOnward(tolerance: int, s: Sys, c: Caller)
    requires tolerance >= 0 && MayCharge(s, c) && !AtCall(c) && !Pays(c)
    ensures Onward(s, c, PurchaseEffect(tolerance, s, c, Smoothly(c)))
  {
  }

  lemma {:induction false} PaymentOnward(s: Sys, c: Caller)
    requires MayCharge(s, c) && !AtCall(c) && Pays(c)
    ensures Onward(s, c, PaymentEffect(s, c, Smoothly(c)))
  {
  }

  lemma {:induction false} OnwardApplied(s: Sys, i: nat, f: Effect)
    requires i < |s.callers| && Onward(s, s.callers[i], f)
    ensures var t := Apply(s, i, f);
            t.charges == s.charges && |t.callers| == |s.callers| && t.callers[i] == f.to && MayCharge(t, f.to)
  {
  }

  lemma {:induction false} StepOnward(tolerance: int, s: Sys, i: nat)
    requires tolerance >= 0 && i < |s.callers| && MayCharge(s, s.callers[i]) && !AtCall(s.callers[i])
    ensures var t := Next(tolerance, s, Move(i, Smoothly(s.callers[i])));
            && t.charges == s.charges && |t.callers| == |s.callers| && MayCharge(t, t.callers[i])
            && StepsLeft(t.callers[i]) < StepsLeft(s.callers[i])
  {
    var c := s.callers[i];
    if Pays(c) {
      PaymentOnward(s, c);
    } else {
      PurchaseOnward(tolerance, s, c);
    }
    OnwardApplied(s, i, StepEffect(tolerance, s, c, Smoothly(c)));
  }

  lemma {:induction false} GoesOnToCharge(tolerance: int, s: Sys, i: nat) returns (events: seq<Event>)
    requires tolerance >= 0 && i < |s.callers| && MayCharge(s, s.callers[i])
    ensures Solo(events, i) && |Run(tolerance, s, events).charges| == |s.charges| + 1
    decreases StepsLeft(s.callers[i])
  {
    var ev := Move(i, Smoothly(s.callers[i]));
    if AtCall(s.callers[i]) {
      events := [ev];
      RunFirst(tolerance, s, ev, []);
      assert [ev] + [] == [ev];
    } else {
      StepOnward(tolerance, s, i);
      var rest := GoesOnToCharge(tolerance, Next(tolerance, s, ev), i);
      RunFirst(tolerance, s, ev, rest);
      events := [ev] + rest;
    }
  }

  /** A caller can go on to charge exactly if the approval it works on, or still has to win, allows it; once it has
      read its intent, nothing that becomes of the intent changes that. */
  lemma {:induction false} ChargesExactly(tolerance: int, s: Sys, i: nat, intents: map<nat, I.State>,
                                          payments: map<nat, P.State>)
    requires tolerance >= 0 && i < |s.callers|
    ensures MayCharge(s, s.callers[i])
            <==> exists events :: Solo(events, i) && |Run(tolerance, s, events).charges| > |s.charges|
    ensures !Loads(s.callers[i]) ==>
              MayCharge(s.(intents := intents, payments := payments), s.callers[i]) == MayCharge(s, s.callers[i])
  {
    if MayCharge(s, s.callers[i]) {
      var events := GoesOnToCharge(tolerance, s, i);
      assert Solo(events, i) && |Run(tolerance, s, events).charges| > |s.charges|;
    } else {
      forall events | Solo(events, i)
        ensures Run(tolerance, s, events).charges == s.charges
      {
        CannotCharge(tolerance, s, events, i);
      }
    }
  }
}
