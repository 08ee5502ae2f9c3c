/** A purchase intent in a terminal state stays in it, whatever is asked afterwards: so a cancelled one is never
    bought. Services act one at a time here; ExecutionTerms says what it takes when they do not. */
module PurchaseFinality {
  import opened PurchaseFlow
  import opened PurchaseInvariants
  import opened PurchaseFrames
  import opened PurchaseSafety
  import S = PurchaseStates

  predicate Final(w: World, n: nat) {
    n in w.deals.intents && S.Terminal(w.deals.intents[n].status)
  }

  predicate SameIntent(w: World, t: World, n: nat) {
    n in w.deals.intents && n in t.deals.intents && t.deals.intents[n] == w.deals.intents[n]
  }

  lemma {:induction false} ShoppedFinal(w: World, agent: string, r: Request)
    requires IsShopping(r) && !r.Creating? && Final(w, r.intent)
    ensures Shopped(w, agent, r) == w
  {
    match r
    case Discovering(n, cs) => S.TerminalIffStuck(w.deals.intents[n].status);
    case Selecting(n, q) =>
    case Evaluating(n) => S.TerminalIffStuck(w.deals.intents[n].status);
  }

  lemma {:induction false} ExecutedFinal(w: World, key: string, agent: string, n: nat, e: ExecuteEnv)
    requires Final(w, n)
    ensures Execute(w, key, agent, n, e).0 == w
  {
    assert Ready(w, agent, n).Err?;
  }

  lemma {:induction false} OrderedFinal(w: World, agent: string, r: Request)
    requires !IsShopping(r) && Final(w, r.intent)
    ensures SameIntent(w, Ordered(w, agent, r), r.intent)
  {
    match r
    case Executing(key, n, e) => ExecutedFinal(w, key, agent, n, e);
    case Authenticating(n, mo, ok, order, at) =>
    case Cancelling(n) => S.TerminalIffStuck(w.deals.intents[n].status);
    case CancellingOrder(n, answer) =>
  }

  lemma {:induction false} AskedFinal(w: World, agent: string, r: Request, n: nat)
    requires Inv(w) && Final(w, n)
    ensures SameIntent(w, Asked(w, agent, r), n)
  {
    if Subject(w, r) != n {
      assert Good(w, Subject(w, r));
      AskedBeside(w, agent, r, n);
      assert CaseOf(Asked(w, agent, r), n).intent == CaseOf(w, n).intent;
    } else if IsShopping(r) {
      assert !r.Creating?;
      ShoppedFinal(w, agent, r);
    } else {
      OrderedFinal(w, agent, r);
    }
  }

  lemma {:induction false} DecidedFinal(w: World, user: string, a: nat, d: PurchaseFlow.Decision, n: nat)
    requires Inv(w) && Final(w, n)
    ensures SameIntent(w, DecidedBy(w, user, a, d), n)
  {
    if a !in w.deals.approvals {
      assert DecidedBy(w, user, a, d) == w;
    } else if ParentOf(w, a) != n {
      DecidedBeside(w, user, a, d, n);
      assert CaseOf(DecidedBy(w, user, a, d), n).intent == CaseOf(w, n).intent;
    } else {
      S.TerminalIffStuck(w.deals.intents[n].status);
      OwnDecisionFinal(w, user, a, d, n);
    }
  }

  /** The decision is stored, but the intent's move is refused. */
  lemma {:induction false} OwnDecisionFinal(w: World, user: string, a: nat, d: PurchaseFlow.Decision, n: nat)
    requires a in w.deals.approvals && w.deals.approvals[a].parent == n && n in w.deals.intents
    requires forall to :: !S.CanTransition(w.deals.intents[n].status, to)
    ensures SameIntent(w, DecidedBy(w, user, a, d), n)
  {
  }

  lemma {:induction false} StepFinal(w: World, op: Op, n: nat)
    requires Inv(w) && Final(w, n)
    ensures SameIntent(w, Step(w, op), n)
  {
    match op
    case Asks(agent, r) => AskedFinal(w, agent, r, n);
    case Decides(user, a, d) => DecidedFinal(w, user, a, d, n);
    case Happens(c) =>
  }

  lemma {:induction false} RunFinal(w: World, ops: seq<Op>, n: nat)
    requires Inv(w) && Final(w, n)
    ensures SameIntent(w, Run(w, ops), n) && Inv(Run(w, ops))
  {
    if ops != [] {
      RunFinal(w, ops[..|ops| - 1], n);
      RunKeeps(w, ops[..|ops| - 1]);
      RunKeeps(w, ops);
      StepFinal(Run(w, ops[..|ops| - 1]), ops[|ops| - 1], n);
    }
  }

  /** Whatever led up to a cancellation and whatever follows it: the intent stays CANCELLED, and no order is ever
      placed for it. */
  lemma {:induction false} CancelledIsNeverBought(w: World, before: seq<Op>, after: seq<Op>, n: nat, k: nat)
    requires Fresh(w) && n in Run(w, before).deals.intents && Run(w, before).deals.intents[n].status == S.Cancelled
    ensures var t := Run(Run(w, before), after);
            && n in t.deals.intents && t.deals.intents[n].status == S.Cancelled
            && (k < |t.record.orders| ==> t.record.orders[k].intent != n)
  {
    var u := Run(w, before);
    Reachable(w, before);
    RunFinal(u, after, n);
    var t := Run(u, after);
    if k < |t.record.orders| {
      OrderBelongs(t, k);
    }
  }
}
