/** A payment intent in a terminal state stays in it, whatever is asked afterwards and under whatever keys: so a
    revoked or cancelled one is never paid. Services act one at a time here; ExecutionTerms says what it takes when
    they do not. */
module PaymentFinality {
  import opened AuditTrails
  import opened Results
  import opened Approvals
  import opened PaymentFlow
  import S = PaymentStates
  import P = Policy
  import D = PaymentDemo

  predicate SameIntent(w: World, t: World, n: nat) {
    n in w.deals.intents && n in t.deals.intents && t.deals.intents[n] == w.deals.intents[n]
  }

  /** Intents have ids already given out, and only those that SUCCEEDED have receipts. */
  predicate Tidy(w: World) {
    forall n | n in w.deals.intents ::
      n < w.deals.next && (w.deals.intents[n].receipt.Some? ==> w.deals.intents[n].status == S.Succeeded)
  }

  /** The step leaves every intent but `n` alone, gives none a receipt but with success, and takes no id back. */
  ghost predicate Touches(w: World, t: World, n: nat) {
    && w.deals.next <= t.deals.next
    && (forall m | m in w.deals.intents && m != n :: SameIntent(w, t, m))
    && (forall m | m in t.deals.intents && m != n :: m in w.deals.intents)
    && (n in t.deals.intents ==>
          n < t.deals.next && (t.deals.intents[n].receipt.Some? ==> t.deals.intents[n].status == S.Succeeded))
  }

  lemma {:induction false} TouchesTwice(w: World, u: World, t: World, n: nat)
    requires Touches(w, u, n) && Touches(u, t, n)
    ensures Touches(w, t, n)
  {
    forall m | m in w.deals.intents && m != n
      ensures SameIntent(w, t, m)
    {
      assert SameIntent(w, u, m);
    }
  }

  lemma {:induction false} TouchedTidy(w: World, t: World, n: nat)
    requires Tidy(w) && Touches(w, t, n)
    ensures Tidy(t)
  {
    forall m | m in t.deals.intents && m != n
      ensures t.deals.intents[m] == w.deals.intents[m]
    {
      assert SameIntent(w, t, m);
    }
  }

  lemma {:induction false} StoredTouches(w: World, n: nat, pi: Intent, to: S.State)
    requires n < w.deals.next && (pi.receipt.Some? ==> to == S.Succeeded)
    ensures Touches(w, Stored(w, n, pi, to), n)
  {
  }

  // ----- creating and deciding

  lemma {:induction false} DecidedTouches(w: World, n: nat, pi: Intent, d: P.Decision)
    requires n < w.deals.next && pi.receipt == None
    ensures Touches(w, Decided(w, n, pi, d), n)
  {
  }

  lemma {:induction false} ConcludedTouches(w: World, n: nat, d: Result<P.PolicyDecision, Error>)
    requires n in w.deals.intents && n < w.deals.next && w.deals.intents[n].receipt == None
    ensures Touches(w, Concluded(w, n, d), n)
  {
    if d.Ok? {
      var u := Log(w, Event(n, None, None));
      DecidedTouches(u, n, w.deals.intents[n].(policyVersion := d.value.version), d.value.decision);
      assert u.deals == w.deals;
    }
  }

  lemma {:induction false} EvaluatedTouches(w: World, pi: Intent, d: Result<P.PolicyDecision, Error>)
    requires pi.receipt == None
    ensures Touches(w, Evaluated(w, pi, d), w.deals.next)
  {
    var n := w.deals.next;
    var u := Stored(Placed(w, pi), n, pi, S.PolicyEvaluating);
    assert Touches(w, u, n);
    ConcludedTouches(u, n, d);
    TouchesTwice(w, u, Evaluated(w, pi, d), n);
  }

  lemma {:induction false} CreateTouches(w: World, agent: string, q: Request)
    requires Tidy(w)
    ensures Touches(w, Create(w, agent, q).0, w.deals.next)
  {
    var user := Permitted(w, agent, PaymentsCreate);
    if user.Ok? && user.value in w.env.tenants {
      var pi := Intent(w.env.tenants[user.value], user.value, q, S.Draft, "", None);
      EvaluatedTouches(w, pi, Judge(w, pi));
    }
  }

  lemma {:induction false} MoveTouches(w: World, n: nat, to: S.State)
    requires Tidy(w)
    ensures Touches(w, MoveParent(w, n, to).0, n)
    ensures n in w.deals.intents && S.Terminal(w.deals.intents[n].status) ==> MoveParent(w, n, to).0 == w
  {
    if n in w.deals.intents && S.CanTransition(w.deals.intents[n].status, to) {
      StoredTouches(w, n, w.deals.intents[n], to);
    }
  }

  // ----- executing

  lemma {:induction false} PreparingTouches(w: World, n: nat, a: nat)
    requires Tidy(w) && n in w.deals.intents && a in w.deals.approvals && w.deals.intents[n].status == S.Authorized
    ensures var u := Preparing(w, n, a).0;
            && Touches(w, u, n) && n in u.deals.intents && a in u.deals.approvals
            && u.deals.intents[n].receipt == None && u.deals.next == w.deals.next
  {
    StoredTouches(w, n, w.deals.intents[n], S.CredentialPreparing);
  }

  lemma {:induction false} SettledTouches(w: World, n: nat, r: Result<D.PaymentResult, Error>)
    requires n in w.deals.intents && n < w.deals.next && w.deals.intents[n].receipt == None
    ensures Touches(w, Settle(w, n, r).0, n)
  {
    if r.Ok? {
      StoredTouches(w, n, Received(w.deals.intents[n], r.value), Landing(r.value.status));
    }
  }

  lemma {:induction false} PayTouches(w: World, key: string, n: nat, a: nat, c: nat, scenario: D.Scenario)
    requires n in w.deals.intents && n < w.deals.next && w.deals.intents[n].receipt == None && a in w.deals.approvals
    ensures Touches(w, Pay(w, key, n, a, c, scenario).0, n)
  {
    var q := w.deals.intents[n].request;
    var t := Claimed(w, n, a);
    assert Touches(w, t, n);
    var paid := D.Paid(t.demo, key, c, q.amount, q.currency, scenario, t.env.now);
    var u := WithDemo(t, paid.0);
    assert u.deals == t.deals;
    SettledTouches(u, n, paid.1);
    assert Touches(w, u, n);
    TouchesTwice(w, u, Settle(u, n, paid.1).0, n);
  }

  lemma {:induction false} ProceedTouches(w: World, key: string, n: nat, a: nat, c: Result<nat, Error>,
                                          scenario: D.Scenario)
    requires n in w.deals.intents && n < w.deals.next && w.deals.intents[n].receipt == None && a in w.deals.approvals
    ensures Touches(w, Proceed(w, key, n, a, c, scenario).0, n)
  {
    if c.Err? {
      StoredTouches(w, n, w.deals.intents[n], S.ProviderUnavailable);
    } else {
      PayTouches(w, key, n, a, c.value, scenario);
    }
  }

  lemma {:induction false} ExecuteOnceTouches(w: World, key: string, agent: string, n: nat, scenario: D.Scenario)
    requires Tidy(w)
    ensures Touches(w, ExecuteOnce(w, key, agent, n, scenario).0, n)
  {
    var a := Ready(w, agent, n);
    if a.Ok? {
      PreparingTouches(w, n, a.value);
      var (t, c) := Preparing(w, n, a.value);
      ProceedTouches(t, key, n, a.value, c, scenario);
      TouchesTwice(w, t, Proceed(t, key, n, a.value, c, scenario).0, n);
    }
  }

  lemma {:induction false} ExecuteTouches(w: World, key: string, agent: string, n: nat, scenario: D.Scenario)
    requires Tidy(w)
    ensures Touches(w, Execute(w, key, agent, n, scenario).0, n)
    ensures n in w.deals.intents && S.Terminal(w.deals.intents[n].status) ==> Execute(w, key, agent, n, scenario).0 == w
  {
    ExecuteOnceTouches(w, key, agent, n, scenario);
    if n in w.deals.intents && S.Terminal(w.deals.intents[n].status) {
      assert Ready(w, agent, n).Err?;
    }
  }

  // ----- any step

  predicate Final(w: World, n: nat) {
    n in w.deals.intents && S.Terminal(w.deals.intents[n].status)
  }

  lemma {:induction false} AskedFinal(w: World, agent: string, ask: Ask, n: nat)
    requires Tidy(w)
    ensures Tidy(Asked(w, agent, ask)) && (Final(w, n) ==> SameIntent(w, Asked(w, agent, ask), n))
  {
    match ask
    case Creating(q) =>
      CreateTouches(w, agent, q);
      TouchedTidy(w, Create(w, agent, q).0, w.deals.next);
    case Executing(key, m, scenario) =>
      ExecuteTouches(w, key, agent, m, scenario);
      TouchedTidy(w, Execute(w, key, agent, m, scenario).0, m);
    case Revoking(m) => RevokeFinal(w, agent, m, n);
  }

  lemma {:induction false} RevokeFinal(w: World, agent: string, m: nat, n: nat)
    requires Tidy(w)
    ensures Tidy(Revoke(w, agent, m).0) && (Final(w, n) ==> SameIntent(w, Revoke(w, agent, m).0, n))
  {
    MoveTouches(w, m, S.Revoked);
    MoveTouches(w, m, S.Cancelled);
    TouchedTidy(w, MoveParent(w, m, S.Revoked).0, m);
    TouchedTidy(w, MoveParent(w, m, S.Cancelled).0, m);
  }

  /** A decision stores the approval first, which touches no intent. */
  lemma {:induction false} DecidedFinal(w: World, user: string, a: nat, n: nat)
    requires Tidy(w)
    ensures Tidy(Approve(w, user, a).0) && (Final(w, n) ==> SameIntent(w, Approve(w, user, a).0, n))
    ensures Tidy(Reject(w, user, a).0) && (Final(w, n) ==> SameIntent(w, Reject(w, user, a).0, n))
  {
    if a in w.deals.approvals {
      MovedFinal(w, WithStatus(w, a, Approved), w.deals.approvals[a].parent, S.Authorized, n);
      MovedFinal(w, WithStatus(w, a, Rejected), w.deals.approvals[a].parent, S.Cancelled, n);
    }
  }

  lemma {:induction false} MovedFinal(w: World, u: World, m: nat, to: S.State, n: nat)
    requires Tidy(w) && u.deals.intents == w.deals.intents && u.deals.next == w.deals.next
    ensures Tidy(MoveParent(u, m, to).0) && (Final(w, n) ==> SameIntent(w, MoveParent(u, m, to).0, n))
  {
    MoveTouches(u, m, to);
    TouchedTidy(u, MoveParent(u, m, to).0, m);
    if Final(w, n) && m != n {
      assert SameIntent(u, MoveParent(u, m, to).0, n);
    }
  }

  lemma {:induction false} StepFinal(w: World, op: Op, n: nat)
    requires Tidy(w)
    ensures Tidy(Step(w, op)) && (Final(w, n) ==> SameIntent(w, Step(w, op), n))
  {
    match op
    case Asks(agent, ask) => AskedFinal(w, agent, ask, n);
    case Approves(user, a) => DecidedFinal(w, user, a, n);
    case Rejects(user, a) => DecidedFinal(w, user, a, n);
    case EnvChanges(env) =>
    case _ =>
  }

  lemma {:induction false} RunTidy(w: World, ops: seq<Op>)
    requires Tidy(w)
    ensures Tidy(Run(w, ops))
  {
    if ops != [] {
      RunTidy(w, ops[..|ops| - 1]);
      StepFinal(Run(w, ops[..|ops| - 1]), ops[|ops| - 1], 0);
    }
  }

  lemma {:induction false} RunFinal(w: World, ops: seq<Op>, n: nat)
    requires Tidy(w) && Final(w, n)
    ensures SameIntent(w, Run(w, ops), n) && Tidy(Run(w, ops))
  {
    if ops != [] {
      RunFinal(w, ops[..|ops| - 1], n);
      StepFinal(Run(w, ops[..|ops| - 1]), ops[|ops| - 1], n);
    }
  }

  /** Whatever led up to a revocation or a cancellation and whatever follows it: the intent stays as it is, without a
      receipt, and executing it does nothing. */
  lemma {:induction false} RevokedIsNeverPaid(w: World, before: seq<Op>, after: seq<Op>, n: nat, key: string,
                                              agent: string,
                                              scenario: D.Scenario)
    requires Fresh(w) && n in Run(w, before).deals.intents
    requires Run(w, before).deals.intents[n].status in {S.Revoked, S.Cancelled}
    ensures var u := Run(w, before);
            var t := Run(u, after);
            && n in t.deals.intents && t.deals.intents[n] == u.deals.intents[n] && u.deals.intents[n].receipt == None
            && Execute(t, key, agent, n, scenario).0 == t
  {
    var u := Run(w, before);
    RunTidy(w, before);
    RunFinal(u, after, n);
    ExecuteTouches(Run(u, after), key, agent, n, scenario);
  }
}
