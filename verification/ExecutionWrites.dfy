/** What each call of the execution protocol writes when nobody interferes with it: exactly which rows, and when none.
    */
module ExecutionWrites {
  import opened Approvals
  import opened ExecutionProtocol
  import I = PurchaseStates
  import P = PaymentStates

  // ----- what a call writes when nobody interferes

  /** The same caller's next steps, one after the other. */
  function Alone(tolerance: int, s: Sys, i: nat, es: seq<Env>): Sys {
    if es == [] then s else Next(tolerance, Alone(tolerance, s, i, es[..|es| - 1]), Move(i, es[|es| - 1]))
  }

  lemma {:induction false} AloneMore(tolerance: int, s: Sys, i: nat, es: seq<Env>, e: Env)
    ensures Alone(tolerance, s, i, es + [e]) == Next(tolerance, Alone(tolerance, s, i, es), Move(i, e))
  {
    assert (es + [e])[..|es|] == es;
  }

  lemma {:induction false} AloneTwo(tolerance: int, s: Sys, i: nat, e: Env, e1: Env)
    ensures Alone(tolerance, s, i, [e, e1]) == Next(tolerance, Next(tolerance, s, Move(i, e)), Move(i, e1))
  {
    assert [] + [e] == [e] && [e] + [e1] == [e, e1];
    AloneMore(tolerance, s, i, [], e);
    AloneMore(tolerance, s, i, [e], e1);
  }

  lemma {:induction false} AloneFour(tolerance: int, s: Sys, i: nat, e: Env, e1: Env, e2: Env, e3: Env)
    ensures Alone(tolerance, s, i, [e, e1, e2, e3])
            == Next(tolerance,
                    Next(tolerance, Next(tolerance, Next(tolerance, s, Move(i, e)), Move(i, e1)), Move(i, e2)),
                    Move(i, e3))
  {
    AloneTwo(tolerance, s, i, e, e1);
    assert [e, e1] + [e2] == [e, e1, e2] && [e, e1, e2] + [e3] == [e, e1, e2, e3];
    AloneMore(tolerance, s, i, [e, e1], e2);
    AloneMore(tolerance, s, i, [e, e1, e2], e3);
  }

  /** Nothing is stored. */
  predicate Idle(s: Sys, t: Sys) {
    && t.approvals == s.approvals && t.latest == s.latest && t.intents == s.intents && t.payments == s.payments
    && t.grants == s.grants && t.wins == s.wins && t.charges == s.charges && |t.callers| == |s.callers|
  }

  lemma {:induction false} DoneIsIdle(tolerance: int, s: Sys, i: nat, e: Env)
    requires i < |s.callers| && s.callers[i] == Done
    ensures var t := Next(tolerance, s, Move(i, e)); Idle(s, t) && t.callers[i] == Done
  {
  }

  /** A call whose last state has been stored, or cannot be, stores no more. */
  lemma {:induction false} StoresLast(tolerance: int, s: Sys, i: nat, n: nat, mine: I.State, to: I.State, e: Env)
    requires i < |s.callers| && s.callers[i] == StoreIntent(n, mine, [to]) && !e.fails
    ensures var t := Next(tolerance, s, Move(i, e));
            && t.approvals == s.approvals && t.latest == s.latest && t.payments == s.payments && t.grants == s.grants
            && t.wins == s.wins && t.charges == s.charges
            && t.intents == if mine in I.Predecessors(to) then s.intents[n := to] else s.intents
  {
    I.ReachedFrom(mine, to);
  }

  lemma {:induction false} StoresLastPayment(tolerance: int, s: Sys, i: nat, n: nat, its: P.State, to: P.State, e: Env)
    requires i < |s.callers| && s.callers[i] == StorePayment(n, its, [to]) && !e.fails
    ensures var t := Next(tolerance, s, Move(i, e));
            && t.approvals == s.approvals && t.latest == s.latest && t.intents == s.intents && t.grants == s.grants
            && t.wins == s.wins && t.charges == s.charges
            && t.payments == if its in P.Predecessors(to) then s.payments[n := to] else s.payments
  {
    P.ReachedFrom(its, to);
  }

  /** A cancellation stores CANCELLED over whatever state it read, if that can be cancelled. */
  lemma {:induction false} CancellationWrites(tolerance: int, s: Sys, i: nat, n: nat, e: Env, e1: Env)
    requires i < |s.callers| && s.callers[i] == LoadCancelled(n) && !e.fails && !e1.fails
    ensures var t := Alone(tolerance, s, i, [e, e1]);
            && t.approvals == s.approvals && t.payments == s.payments && t.grants == s.grants && t.charges == s.charges
            && t.intents == if n in s.intents && s.intents[n] in I.Predecessors(I.Cancelled)
                            then s.intents[n := I.Cancelled] else s.intents
  {
    AloneTwo(tolerance, s, i, e, e1);
    var u := Next(tolerance, s, Move(i, e));
    if n in s.intents {
      StoresLast(tolerance, u, i, n, s.intents[n], I.Cancelled, e1);
    } else {
      DoneIsIdle(tolerance, u, i, e1);
    }
  }

  /** What a revocation makes of each state: REVOKED while somebody has been asked or money could move, CANCELLED in the
      other states that can be cancelled, and itself in the rest. */
  function RevokedFrom(its: P.State): P.State {
    if its in {P.ApprovalRequired, P.Authorized, P.ReadyToExecute} then P.Revoked
    else if its in {P.Draft, P.PolicyEvaluating, P.MerchantActionRequired, P.ProviderUnavailable} then P.Cancelled
    else its
  }

  lemma {:induction false} RevokeTable(its: P.State)
    ensures its in P.Predecessors(RevokeTarget(its)) <==> RevokedFrom(its) != its
    ensures its in P.Predecessors(RevokeTarget(its)) ==> RevokeTarget(its) == RevokedFrom(its)
  {
  }

  lemma {:induction false} RevocationRead(tolerance: int, s: Sys, i: nat, n: nat, e: Env)
    requires i < |s.callers| && s.callers[i] == LoadRevoked(n) && !e.fails
    ensures var t := Next(tolerance, s, Move(i, e));
            && Idle(s, t)
            && t.callers[i] == if n in s.payments then StorePayment(n, s.payments[n], [RevokeTarget(s.payments[n])])
                               else Done
  {
  }

  /** A revocation stores what it makes of the state it read, where that is another. */
  lemma {:induction false} RevocationWrites(tolerance: int, s: Sys, i: nat, n: nat, e: Env, e1: Env)
    requires i < |s.callers| && s.callers[i] == LoadRevoked(n) && !e.fails && !e1.fails
    ensures var t := Alone(tolerance, s, i, [e, e1]);
            && t.approvals == s.approvals && t.intents == s.intents && t.grants == s.grants && t.charges == s.charges
            && t.payments == if n in s.payments && RevokedFrom(s.payments[n]) != s.payments[n]
                             then s.payments[n := RevokedFrom(s.payments[n])] else s.payments
  {
    AloneTwo(tolerance, s, i, e, e1);
    RevocationRead(tolerance, s, i, n, e);
    var u := Next(tolerance, s, Move(i, e));
    if n in s.payments {
      RevokeTable(s.payments[n]);
      StoresLastPayment(tolerance, u, i, n, s.payments[n], RevokeTarget(s.payments[n]), e1);
    } else {
      DoneIsIdle(tolerance, u, i, e1);
    }
  }

  /** The approval is open to the decision. */
  predicate OpenTo(row: Row, verdict: Verdict, expired: bool) {
    match verdict
    case ApproveIt => row.status == Pending && !expired
    case RejectIt => row.status == Pending || row.status == ReapprovalRequired
    case ReapproveIt => row.status == ReapprovalRequired
  }

  function DecidedRow(row: Row, verdict: Verdict, quoted: int): Row {
    match verdict
    case ApproveIt => Row(row.parent, row.amount, Approved)
    case RejectIt => Row(row.parent, row.amount, Rejected)
    case ReapproveIt => Row(row.parent, quoted, Approved)
  }

  lemma {:induction false} DecisionRead(tolerance: int, s: Sys, i: nat, a: nat, verdict: Verdict, e: Env)
    requires i < |s.callers| && s.callers[i] == LoadDecided(a, verdict) && !e.fails
    ensures var t := Next(tolerance, s, Move(i, e));
            && Idle(s, t)
            && if a in s.approvals && OpenTo(s.approvals[a], verdict, e.expired) then
                 t.callers[i] == WriteDecision(a, s.approvals[a].(amount := if verdict == ReapproveIt then e.amount
                                                                            else s.approvals[a].amount), verdict)
               else t.callers[i] == Done
  {
  }

  lemma {:induction false} DecisionStored(tolerance: int, s: Sys, i: nat, a: nat, row: Row, verdict: Verdict, e: Env)
    requires i < |s.callers| && s.callers[i] == WriteDecision(a, row, verdict) && !e.fails
    ensures var t := Next(tolerance, s, Move(i, e));
            && t.approvals == s.approvals[a := DecidedRow(row, verdict, row.amount)]
            && t.grants == (if verdict == RejectIt then s.grants else s.grants + [Grant(a, row.amount)])
            && t.intents == s.intents && t.payments == s.payments && t.wins == s.wins && t.charges == s.charges
            && t.latest == s.latest && |t.callers| == |s.callers| && t.callers[i] == LoadParent(row.parent, verdict)
  {
  }

  /** The parent follows the decision, if it is there and its state allows it: a purchase to APPROVED or CANCELLED, a
      payment to AUTHORIZED or CANCELLED, unless it is reapproved. */
  lemma {:induction false} ParentWrites(tolerance: int, s: Sys, i: nat, parent: Parent, verdict: Verdict, e: Env,
                                        e1: Env)
    requires i < |s.callers| && s.callers[i] == LoadParent(parent, verdict) && !e.fails && !e1.fails
    ensures var t := Next(tolerance, Next(tolerance, s, Move(i, e)), Move(i, e1));
            && t.approvals == s.approvals && t.grants == s.grants && t.wins == s.wins && t.charges == s.charges
            && t.latest == s.latest && ParentFollows(s, t, parent, verdict)
  {
    var u := Next(tolerance, s, Move(i, e));
    match parent
    case Purchase(n) =>
      if n in s.intents {
        StoresLast(tolerance, u, i, n, s.intents[n], if verdict == RejectIt then I.Cancelled else I.Approved, e1);
      } else {
        DoneIsIdle(tolerance, u, i, e1);
      }
    case Payment(n) =>
      if n in s.payments && verdict != ReapproveIt {
        StoresLastPayment(tolerance, u, i, n, s.payments[n], if verdict == RejectIt then P.Cancelled else P.Authorized,
                          e1);
      } else {
        DoneIsIdle(tolerance, u, i, e1);
      }
  }

  predicate ParentFollows(s: Sys, t: Sys, parent: Parent, verdict: Verdict) {
    match parent
    case Purchase(n) =>
      var to := if verdict == RejectIt then I.Cancelled else I.Approved;
      && t.payments == s.payments
      && t.intents == if n in s.intents && s.intents[n] in I.Predecessors(to) then s.intents[n := to] else s.intents
    case Payment(n) =>
      var to := if verdict == RejectIt then P.Cancelled else P.Authorized;
      && t.intents == s.intents
      && t.payments == if n in s.payments && verdict != ReapproveIt && s.payments[n] in P.Predecessors(to)
                       then s.payments[n := to] else s.payments
  }

  /** A decision that nobody interferes with: refused, or stored with its grant, and followed by the parent. */
  lemma {:induction false} DecisionWrites(tolerance: int, s: Sys, i: nat, a: nat, verdict: Verdict, e: Env, e1: Env,
                                          e2: Env, e3: Env)
    requires i < |s.callers| && s.callers[i] == LoadDecided(a, verdict)
    requires !e.fails && !e1.fails && !e2.fails && !e3.fails
    ensures var t := Alone(tolerance, s, i, [e, e1, e2, e3]);
            if a in s.approvals && OpenTo(s.approvals[a], verdict, e.expired) then
              var row := DecidedRow(s.approvals[a], verdict, e.amount);
              && t.approvals == s.approvals[a := row] && ParentFollows(s, t, row.parent, verdict)
              && t.grants == (if verdict == RejectIt then s.grants else s.grants + [Grant(a, row.amount)])
              && t.wins == s.wins && t.charges == s.charges && t.latest == s.latest
            else Idle(s, t)
  {
    AloneFour(tolerance, s, i, e, e1, e2, e3);
    var u := Next(tolerance, s, Move(i, e));
    DecisionRead(tolerance, s, i, a, verdict, e);
    var v := Next(tolerance, u, Move(i, e1));
    if a in s.approvals && OpenTo(s.approvals[a], verdict, e.expired) {
      var row := u.callers[i].row;
      DecisionStored(tolerance, u, i, a, row, verdict, e1);
      ParentWrites(tolerance, v, i, row.parent, verdict, e2, e3);
    } else {
      DoneIsIdle(tolerance, u, i, e1);
      DoneIsIdle(tolerance, v, i, e2);
      DoneIsIdle(tolerance, Next(tolerance, v, Move(i, e2)), i, e3);
    }
  }

  predicate RowCreated(s: Sys, t: Sys, a: nat, row: Row) {
    && t.approvals == s.approvals[a := row] && t.latest == s.latest[row.parent := a]
    && t.grants == (if row.status == Approved then s.grants + [Grant(a, row.amount)] else s.grants)
    && t.wins == s.wins && t.charges == s.charges
  }

  lemma {:induction false} CreationStored(tolerance: int, s: Sys, i: nat, a: nat, row: Row, e: Env)
    requires i < |s.callers| && s.callers[i] == Create(a, row) && a !in s.approvals && !e.fails
    requires row.status == Approved || row.status == Pending
    ensures var t := Next(tolerance, s, Move(i, e));
            && RowCreated(s, t, a, row) && t.intents == s.intents && t.payments == s.payments
            && |t.callers| == |s.callers| && t.callers[i] == AfterCreation(row)
  {
  }

  lemma {:induction false} PurchaseFollows(tolerance: int, u: Sys, i: nat, row: Row, n: nat, e: Env)
    requires i < |u.callers| && u.callers[i] == AfterCreation(row) && row.parent == Purchase(n) && !e.fails
    ensures var t := Next(tolerance, u, Move(i, e));
            && t.approvals == u.approvals && t.latest == u.latest && t.grants == u.grants && t.wins == u.wins
            && t.charges == u.charges && t.payments == u.payments
            && t.intents == u.intents[n := if row.status == Approved then I.Approved else I.ApprovalRequired]
  {
    StoresLast(tolerance, u, i, n, I.PolicyCheck,
               if row.status == Approved then I.Approved else I.ApprovalRequired, e);
  }

  lemma {:induction false} PaymentFollows(tolerance: int, u: Sys, i: nat, row: Row, n: nat, e: Env)
    requires i < |u.callers| && u.callers[i] == AfterCreation(row) && row.parent == Payment(n) && !e.fails
    ensures var t := Next(tolerance, u, Move(i, e));
            && t.approvals == u.approvals && t.latest == u.latest && t.grants == u.grants && t.wins == u.wins
            && t.charges == u.charges && t.intents == u.intents
            && t.payments == u.payments[n := if row.status == Approved then P.Authorized else P.ApprovalRequired]
  {
    StoresLastPayment(tolerance, u, i, n, P.PolicyEvaluating,
                      if row.status == Approved then P.Authorized else P.ApprovalRequired, e);
  }

  /** The creation of an approval, APPROVED or PENDING, for a purchase: it becomes the intent's latest, and the intent
      goes to APPROVED or awaits it. */
  lemma {:induction false} CreationWrites(tolerance: int, s: Sys, i: nat, a: nat, row: Row, n: nat, e: Env, e1: Env)
    requires i < |s.callers| && s.callers[i] == Create(a, row) && a !in s.approvals && !e.fails && !e1.fails
    requires (row.status == Approved || row.status == Pending) && row.parent == Purchase(n)
    ensures var t := Alone(tolerance, s, i, [e, e1]);
            && RowCreated(s, t, a, row) && t.payments == s.payments
            && t.intents == s.intents[n := if row.status == Approved then I.Approved else I.ApprovalRequired]
  {
    AloneTwo(tolerance, s, i, e, e1);
    CreationStored(tolerance, s, i, a, row, e);
    PurchaseFollows(tolerance, Next(tolerance, s, Move(i, e)), i, row, n, e1);
  }

  /** And for a payment. */
  lemma {:induction false} PaymentCreationWrites(tolerance: int, s: Sys, i: nat, a: nat, row: Row, n: nat, e: Env,
                                                 e1: Env)
    requires i < |s.callers| && s.callers[i] == Create(a, row) && a !in s.approvals && !e.fails && !e1.fails
    requires (row.status == Approved || row.status == Pending) && row.parent == Payment(n)
    ensures var t := Alone(tolerance, s, i, [e, e1]);
            && RowCreated(s, t, a, row) && t.intents == s.intents
            && t.payments == s.payments[n := if row.status == Approved then P.Authorized else P.ApprovalRequired]
  {
    AloneTwo(tolerance, s, i, e, e1);
    CreationStored(tolerance, s, i, a, row, e);
    PaymentFollows(tolerance, Next(tolerance, s, Move(i, e)), i, row, n, e1);
  }

  /** A merchant's answer is charged for once, at the amount verified, and stored if it is a state EXECUTING leads to.
      */
  lemma {:induction false} CheckoutWrites(tolerance: int, s: Sys, i: nat, n: nat, a: nat, row: Row, verified: int,
                                          e: Env,
                                          e1: Env)
    requires i < |s.callers| && s.callers[i] == CallConnector(n, I.Executing, a, row, verified) && !e.fails && !e1.fails
    ensures var t := Alone(tolerance, s, i, [e, e1]);
            && t.charges == s.charges + [Charge(a, verified)]
            && t.approvals == s.approvals && t.payments == s.payments && t.grants == s.grants && t.wins == s.wins
            && t.intents == if I.Executing in I.Predecessors(e.outcome) then s.intents[n := e.outcome] else s.intents
  {
    AloneTwo(tolerance, s, i, e, e1);
    StoresLast(tolerance, Next(tolerance, s, Move(i, e)), i, n, I.Executing, e.outcome, e1);
  }

  /** And a provider's at the amount approved. */
  lemma {:induction false} PaymentWrites(tolerance: int, s: Sys, i: nat, n: nat, a: nat, row: Row, e: Env, e1: Env)
    requires i < |s.callers| && s.callers[i] == CallProvider(n, P.Processing, a, row) && !e.fails && !e1.fails
    ensures var t := Alone(tolerance, s, i, [e, e1]);
            && t.charges == s.charges + [Charge(a, row.amount)]
            && t.approvals == s.approvals && t.intents == s.intents && t.grants == s.grants && t.wins == s.wins
            && t.payments == if P.Processing in P.Predecessors(e.paymentOutcome) then s.payments[n := e.paymentOutcome]
                             else s.payments
  {
    AloneTwo(tolerance, s, i, e, e1);
    StoresLastPayment(tolerance, Next(tolerance, s, Move(i, e)), i, n, P.Processing, e.paymentOutcome, e1);
  }

  lemma {:induction false} PreparationRefused(tolerance: int, s: Sys, i: nat, n: nat, a: nat, row: Row, e: Env)
    requires i < |s.callers| && s.callers[i] == Prepare(n, P.CredentialPreparing, a, row) && !e.fails
    requires e.check != Allowed
    ensures var t := Next(tolerance, s, Move(i, e));
            Idle(s, t) && t.callers[i] == StorePayment(n, P.CredentialPreparing, [P.ProviderUnavailable])
  {
  }

  /** A preparation that does not come off leaves the intent in PROVIDER_UNAVAILABLE and its approval as it was. */
  lemma {:induction false} FailedPreparationWrites(tolerance: int, s: Sys, i: nat, n: nat, a: nat, row: Row, e: Env,
                                                   e1: Env)
    requires i < |s.callers| && s.callers[i] == Prepare(n, P.CredentialPreparing, a, row) && !e.fails && !e1.fails
    requires e.check != Allowed
    ensures var t := Alone(tolerance, s, i, [e, e1]);
            && t.payments == s.payments[n := P.ProviderUnavailable]
            && t.approvals == s.approvals && t.intents == s.intents && t.grants == s.grants && t.wins == s.wins
            && t.charges == s.charges
  {
    AloneTwo(tolerance, s, i, e, e1);
    PreparationRefused(tolerance, s, i, n, a, row, e);
    StoresLastPayment(tolerance, Next(tolerance, s, Move(i, e)), i, n, P.CredentialPreparing, P.ProviderUnavailable,
                      e1);
  }
}
