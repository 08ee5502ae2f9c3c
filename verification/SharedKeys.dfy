/** Why idempotency keys must not be shared: two intents executed under one key both succeed on one payment, for the
    first one's amount. */
module SharedKeys {
  import opened AuditTrails
  import opened Results
  import opened Approvals
  import opened PaymentFlow
  import opened PaymentExecution
  import PaymentSafety
  import PaymentKeys
  import S = PaymentStates
  import P = Policy
  import D = PaymentDemo
  import V = PolicySets

  /** Who pays: an agent, its user, and the user's tenant. */
  datatype Payer = Payer(agent: string, user: string, tenant: string)

  /** Rules that forbid nothing. */
  predicate ForbidNothing(r: P.Rules) {
    && r.maxPerTransaction == 0 && r.maxPerDay == 0 && r.currency == "" && r.approvalThreshold == 0
    && r.allowedMerchants == [] && r.blockedMerchants == [] && r.blockedCategories == []
    && r.allowedPaymentProfiles == [] && r.allowedShippingProfiles == [] && !r.internationalRequiresApproval
  }

  predicate Open(env: Env, p: Payer) {
    && p.agent in env.agents && env.agents[p.agent] == Agent(p.user, {PaymentsCreate, PaymentsExecute}, false)
    && p.user in env.tenants && env.tenants[p.user] == p.tenant != "" && env.approvalTTL >= 0
    && var active := V.Effective(env.policies, V.Owner(p.tenant, Some(p.user)));
       active.Ok? && ForbidNothing(active.value.rules)
  }

  predicate Payable(q: Request) {
    q.merchant != "" && q.amount > 0 && q.currency != "" && q.alias != "" && q.tolerance >= 0
  }

  /** A stored intent of the payer. */
  predicate IntentIs(w: World, p: Payer, n: nat, q: Request, status: S.State, receipt: Option<Receipt>) {
    && n in w.deals.intents
    && var pi := w.deals.intents[n];
       pi.tenant == p.tenant && pi.user == p.user && pi.request == q && pi.status == status && pi.receipt == receipt
  }

  /** The intent is authorized, and its approval granted and in time. */
  predicate Due(w: World, p: Payer, n: nat, q: Request) {
    && IntentIs(w, p, n, q, S.Authorized, None)
    && n in w.deals.latest && w.deals.latest[n] == n + 1 && n + 1 in w.deals.approvals
    && w.deals.approvals[n + 1].status == Approved && w.deals.approvals[n + 1].expiresAt >= w.env.now
  }

  /** Everything about other intents is as it was. */
  ghost predicate Beyond(w: World, t: World, n: nat) {
    && t.env == w.env
    && (forall m | m in w.deals.intents && m != n :: m in t.deals.intents && t.deals.intents[m] == w.deals.intents[m])
    && (forall m | m in w.deals.latest && m != n :: m in t.deals.latest && t.deals.latest[m] == w.deals.latest[m])
    && (forall a | a in w.deals.approvals && a != n + 1 ::
          a in t.deals.approvals && t.deals.approvals[a] == w.deals.approvals[a])
    && (forall k | k in t.record.outcomes :: k in w.record.outcomes || k.1 == n)
  }

  // ----- the worlds requests can lead to

  predicate OnlyAsks(ops: seq<Op>) {
    forall j | 0 <= j < |ops| :: ops[j].Asks?
  }

  ghost predicate LeadsTo(start: World, w: World) {
    exists ops :: OnlyAsks(ops) && Run(start, ops) == w
  }

  ghost function From(start: World): iset<World> {
    iset w | LeadsTo(start, w)
  }

  /** A set of worlds that no request leaves. */
  ghost predicate Closed(r: iset<World>) {
    forall w, agent, ask | w in r :: Asked(w, agent, ask) in r
  }

  lemma {:induction false} FromIsClosed(start: World)
    ensures Closed(From(start)) && start in From(start)
  {
    assert OnlyAsks([]) && Run(start, []) == start;
    assert LeadsTo(start, start);
    forall w, agent, ask | w in From(start)
      ensures Asked(w, agent, ask) in From(start)
    {
      var ops :| OnlyAsks(ops) && Run(start, ops) == w;
      OneMore(start, ops, agent, ask);
      assert LeadsTo(start, Asked(w, agent, ask));
    }
  }

  lemma {:induction false} OneMore(start: World, ops: seq<Op>, agent: string, ask: Ask)
    requires OnlyAsks(ops)
    ensures OnlyAsks(ops + [Asks(agent, ask)])
    ensures Run(start, ops + [Asks(agent, ask)]) == Asked(Run(start, ops), agent, ask)
  {
    var more := ops + [Asks(agent, ask)];
    assert more[..|more| - 1] == ops;
  }

  // ----- creating

  lemma {:induction false} IsAllowed(w: World, p: Payer, pi: Intent)
    requires Open(w.env, p) && pi.tenant == p.tenant && pi.user == p.user
    ensures Judge(w, pi).Ok? && Judge(w, pi).value.decision == P.Allow
  {
    P.PurchaseVerdict(V.Effective(w.env.policies, V.Owner(p.tenant, Some(p.user))).value.rules, PolicyInput(pi));
  }

  lemma {:induction false} AllowConcludes(w: World, n: nat, d: Result<P.PolicyDecision, Error>)
    requires n in w.deals.intents && d.Ok? && d.value.decision == P.Allow
    ensures var pi := w.deals.intents[n].(policyVersion := d.value.version);
            Concluded(w, n, d)
              == Stored(NewApproval(Log(w, Event(n, None, None)), n, pi, Approved), n, pi, S.Authorized)
  {
  }

  lemma {:induction false} Concludes(w: World, p: Payer, n: nat, q: Request, d: Result<P.PolicyDecision, Error>)
    requires IntentIs(w, p, n, q, S.PolicyEvaluating, None) && w.deals.next == n + 1 && w.env.approvalTTL >= 0
    requires d.Ok? && d.value.decision == P.Allow
    ensures var t := Concluded(w, n, d);
            && Due(t, p, n, q) && t.deals.next == n + 2 && Beyond(w, t, n) && t.demo == w.demo
            && t.record.outcomes == w.record.outcomes
  {
    AllowConcludes(w, n, d);
  }

  lemma {:induction false} Creates(r: iset<World>, w: World, p: Payer, q: Request) returns (t: World)
    requires Closed(r) && w in r && Open(w.env, p) && Payable(q)
    ensures t in r && Due(t, p, w.deals.next, q) && t.deals.next == w.deals.next + 2 && Beyond(w, t, w.deals.next)
    ensures t.demo == w.demo && t.record.outcomes == w.record.outcomes
  {
    var n := w.deals.next;
    var pi := Intent(p.tenant, p.user, q, S.Draft, "", None);
    t := Asked(w, p.agent, Creating(q));
    IsAllowed(w, p, pi);
    var u := Stored(Placed(w, pi), n, pi, S.PolicyEvaluating);
    assert Permitted(w, p.agent, PaymentsCreate) == Ok(p.user);
    assert t == Concluded(u, n, Judge(w, pi));
    Concludes(u, p, n, q, Judge(w, pi));
  }

  // ----- paying

  /** What the provider remembers under the key, if anything, is a payment that succeeded. */
  ghost predicate Replayable(d: D.Demo, key: string) {
    key in d.book.byKey ==> d.book.byKey[key].status == D.Succeeded && d.book.byKey[key].transaction.Some?
  }

  /** What an execution's answer does to the provider's book: a new payment, or nothing if the key was used. */
  ghost predicate Booked(d: D.Demo, e: D.Demo, key: string, q: Request, x: D.PaymentResult) {
    && x.status == D.Succeeded && x.transaction.Some? && e.book.byKey == d.book.byKey[key := x]
    && if key in d.book.byKey then x == d.book.byKey[key] && e.book.results == d.book.results
       else x.transaction.value !in d.book.results && x.amount == q.amount && x.refundOf == None
            && e.book.results == d.book.results[x.transaction.value := x]
  }

  function ReceiptFor(x: D.PaymentResult): Receipt
    requires x.transaction.Some?
  {
    Receipt(x.transaction.value, x.amount, x.currency)
  }

  lemma {:induction false} PrepareLeavesBook(d: D.Demo, user: string, q: Request, expiresAt: int, now: int)
    ensures Prepare(d, user, q, expiresAt, now).0.book == d.book
  {
  }

  /** Once a credential is there, the payment succeeds, new or replayed. */
  lemma {:induction false} PaysOn(w: World, p: Payer, key: string, n: nat, c: nat, q: Request)
    returns (x: D.PaymentResult)
    requires key != "" && D.Sound(w.demo) && Replayable(w.demo, key)
    requires IntentIs(w, p, n, q, S.CredentialPreparing, None) && n + 1 in w.deals.approvals
    requires Prepared(w.demo, c, p.user, q, w.deals.approvals[n + 1].expiresAt, w.env.now)
    ensures var (t, o) := Pay(w, key, n, n + 1, c, D.Plain);
            && Booked(w.demo, t.demo, key, q, x) && IntentIs(t, p, n, q, S.Succeeded, Some(ReceiptFor(x)))
            && Beyond(w, t, n) && t.record.outcomes == w.record.outcomes && D.Sound(t.demo)
  {
    PaymentKeys.KeyDecides(w, key, n, n + 1, c);
    D.PayingIsSound(w.demo, key, c, q.amount, q.currency, D.Plain, w.env.now);
    var (t, o) := Pay(w, key, n, n + 1, c, D.Plain);
    x := o.result.value;
    if !PaymentKeys.Used(w.demo, key) {
      D.PaidFresh(w.demo, key, c, q.amount, q.currency, D.Plain, w.env.now);
    }
    assert w.demo.book.byKey[key := x] == t.demo.book.byKey;
  }

  lemma {:induction false} Prepares(w: World, p: Payer, n: nat, q: Request)
    requires Due(w, p, n, q) && q.tolerance >= 0 && D.Sound(w.demo)
    ensures var (u, c) := Preparing(w, n, n + 1);
            && c.Ok? && D.Sound(u.demo) && u.demo.book == w.demo.book
            && IntentIs(u, p, n, q, S.CredentialPreparing, None) && n + 1 in u.deals.approvals
            && Prepared(u.demo, c.value, p.user, q, u.deals.approvals[n + 1].expiresAt, u.env.now)
            && Beyond(w, u, n) && u.record.outcomes == w.record.outcomes
  {
    var expiresAt := w.deals.approvals[n + 1].expiresAt;
    PrepareResult(w.demo, p.user, q, expiresAt, w.env.now);
    PrepareIsSound(w.demo, p.user, q, expiresAt, w.env.now);
    PrepareLeavesBook(w.demo, p.user, q, expiresAt, w.env.now);
  }

  lemma {:induction false} ExecutedAs(w: World, p: Payer, key: string, n: nat, q: Request)
    requires Open(w.env, p) && Due(w, p, n, q) && q.tolerance >= 0 && D.Sound(w.demo) && key != ""
             && (key, n) !in w.record.outcomes
    ensures var (u, c) := Preparing(w, n, n + 1);
            && c.Ok?
            && var (t, o) := Pay(u, key, n, n + 1, c.value, D.Plain);
               Asked(w, p.agent, Executing(key, n, D.Plain)) == Remembered(t, key, n, Ok(o))
  {
    Prepares(w, p, n, q);
    assert Owned(w, p.agent, n, PaymentsExecute) == Ok(w.deals.intents[n]);
    assert Ready(w, p.agent, n) == Ok(n + 1);
  }

  lemma {:induction false} BeyondChain(w: World, u: World, t: World, n: nat)
    requires Beyond(w, u, n) && Beyond(u, t, n)
    ensures Beyond(w, t, n)
  {
  }

  lemma {:induction false} Executes(r: iset<World>, w: World, p: Payer, key: string, n: nat, q: Request)
    returns (t: World, x: D.PaymentResult)
    requires Closed(r) && w in r && Open(w.env, p) && Due(w, p, n, q) && q.tolerance >= 0
    requires D.Sound(w.demo) && key != "" && (key, n) !in w.record.outcomes && Replayable(w.demo, key)
    ensures t in r && Booked(w.demo, t.demo, key, q, x) && IntentIs(t, p, n, q, S.Succeeded, Some(ReceiptFor(x)))
    ensures Beyond(w, t, n) && D.Sound(t.demo)
  {
    var (u, c) := Preparing(w, n, n + 1);
    Prepares(w, p, n, q);
    x := PaysOn(u, p, key, n, c.value, q);
    ExecutedAs(w, p, key, n, q);
    var (v, o) := Pay(u, key, n, n + 1, c.value, D.Plain);
    BeyondChain(w, u, v, n);
    RememberedBeyond(w, v, key, n, o);
    assert Asked(w, p.agent, Executing(key, n, D.Plain)) in r;
    t := Remembered(v, key, n, Ok(o));
  }

  lemma {:induction false} RememberedBeyond(w: World, t: World, key: string, n: nat, o: Outcome)
    requires Beyond(w, t, n)
    ensures var v := Remembered(t, key, n, Ok(o)); Beyond(w, v, n) && v.deals == t.deals && v.demo == t.demo
  {
  }

  // ----- the run

  const SMALL: Request := Request("merchant", "", false, 100, "INR", 0, "card")
  const LARGE: Request := Request("merchant", "", false, 900, "INR", 0, "card")

  const RULES: P.Rules := P.Rules("v", 0, 0, "", 0, [], [], [], [], [], false, [], [], "", "")
  const PAYER: Payer := Payer("agent", "user", "tenant")

  const START: World :=
    World(Env(0, 0, map[PAYER.agent := Agent(PAYER.user, {PaymentsCreate, PaymentsExecute}, false)],
              map[PAYER.user := PAYER.tenant],
              [V.PolicySet(V.Owner(PAYER.tenant, None), RULES, 1, false)]),
          D.NEW, Deals(map[], map[], map[], 0), Record([], map[]))

  lemma {:induction false} StartIsOpen()
    ensures Open(START.env, PAYER) && Fresh(START)
  {
    var sets := START.env.policies;
    assert sets[..0] == [];
    assert V.ActiveOf(sets, V.Owner(PAYER.tenant, None)) == Some(sets[0]);
    assert V.ActiveOf(sets, V.Owner(PAYER.tenant, Some(PAYER.user))) == None;
  }

  /** Both intents have succeeded, on the one payment the provider has recorded, for the small amount. */
  ghost predicate OnePaymentForTwo(w: World, n: nat, m: nat, x: nat) {
    && n != m && n in w.deals.intents && m in w.deals.intents
    && w.deals.intents[n].status == S.Succeeded && w.deals.intents[m].status == S.Succeeded
    && PaymentSafety.Paid(w, n, x) && PaymentSafety.Paid(w, m, x)
    && w.deals.intents[n].request.amount == 100 && w.deals.intents[m].request.amount == 900
    && w.deals.intents[n].receipt.value.amount == 100 && w.deals.intents[m].receipt.value.amount == 100
    && forall y :: D.IsPayment(w.demo, y) <==> y == x
  }

  lemma {:induction false} PaysTwice(r: iset<World>, w: World, p: Payer, key: string) returns (t: World, x: nat)
    requires Closed(r) && w in r && Open(w.env, p) && w.demo == D.NEW && key != "" && (key, 0) !in w.record.outcomes
    requires (key, 2) !in w.record.outcomes && Due(w, p, 0, SMALL) && Due(w, p, 2, LARGE)
    ensures t in r && OnePaymentForTwo(t, 0, 2, x)
  {
    D.NewIsSound();
    var first, paid := Executes(r, w, p, key, 0, SMALL);
    x := paid.transaction.value;
    assert first.demo.book.results == map[x := paid];
    t := PaysAgain(r, first, p, key, paid);
  }

  /** The key now answers with the first payment. */
  lemma {:induction false} PaysAgain(r: iset<World>, w: World, p: Payer, key: string, paid: D.PaymentResult)
    returns (t: World)
    requires Closed(r) && w in r && Open(w.env, p) && key != "" && (key, 2) !in w.record.outcomes && D.Sound(w.demo)
    requires Due(w, p, 2, LARGE) && paid.transaction.Some?
             && IntentIs(w, p, 0, SMALL, S.Succeeded, Some(ReceiptFor(paid)))
    requires key in w.demo.book.byKey && w.demo.book.byKey[key] == paid && paid.status == D.Succeeded
             && paid.amount == 100
    requires w.demo.book.results == map[paid.transaction.value := paid] && paid.refundOf == None
    ensures t in r && OnePaymentForTwo(t, 0, 2, paid.transaction.value)
  {
    var replayed;
    t, replayed := Executes(r, w, p, key, 2, LARGE);
  }

  /** A run from a fresh deployment with one payer, two intents and one idempotency key. */
  lemma {:induction false} SharedKeySharesPayment() returns (w: World, ops: seq<Op>, x: nat)
    ensures Fresh(w) && OnlyAsks(ops) && OnePaymentForTwo(Run(w, ops), 0, 2, x)
  {
    w := START;
    StartIsOpen();
    FromIsClosed(START);
    var one := Creates(From(START), START, PAYER, SMALL);
    var two := Creates(From(START), one, PAYER, LARGE);
    var t;
    t, x := PaysTwice(From(START), two, PAYER, "key");
    assert LeadsTo(START, t);
    ops :| OnlyAsks(ops) && Run(START, ops) == t;
  }
}
