/** Payments and receipts correspond one to one, in every run over the demo provider in which idempotency keys
    are not shared between intents, nor between an intent and the provider's other callers. */
module PaymentSafety {
  import opened AuditTrails
  import opened Results
  import opened Approvals
  import opened PaymentFlow
  import opened PaymentInvariants
  import opened PaymentExecution
  import S = PaymentStates
  import D = PaymentDemo

  // ----- the books balance

  /** A receipt is for a payment in the provider's book, made on a credential for exactly the requested amount,
      delegated up to that amount plus the tolerance until the approval expires, on the source registered for the
      user and the alias asked for. */
  ghost predicate Backed(d: D.Demo, user: string, q: Request, until: Option<int>, r: Receipt) {
    && D.IsPayment(d, r.transaction)
    && d.book.results[r.transaction].amount == r.amount == q.amount
    && d.book.results[r.transaction].currency == r.currency == q.currency
    && d.book.results[r.transaction].credential.Some?
    && until.Some? && ForRequest(d, d.book.results[r.transaction].credential.value, user, q, until.value)
  }

  /** The receipt of an intent, backed in all of that. */
  ghost predicate ReceiptBacked(w: World, n: nat)
    requires n in w.deals.intents && w.deals.intents[n].receipt.Some?
  {
    var pi := w.deals.intents[n];
    Backed(w.demo, pi.user, pi.request, Until(w, n), pi.receipt.value)
  }

  function ReceiptAt(w: World, n: nat): Option<Receipt> {
    if n in w.deals.intents then w.deals.intents[n].receipt else None
  }

  ghost predicate Paid(w: World, n: nat, t: nat) {
    ReceiptAt(w, n).Some? && ReceiptAt(w, n).value.transaction == t
  }

  /** Everybody else who calls the provider. `owner` says which intent, if any, each idempotency key belongs to;
      the other keys are free to them. `payments` are the transactions they made. */
  datatype Others = Others(owner: string -> Option<nat>, payments: set<nat>)

  /** Receipts are backed, no two intents share a payment, and the payments without an intent are those that
      others made. */
  ghost predicate Balanced(w: World, foreign: set<nat>) {
    && (forall n | n in w.deals.intents && w.deals.intents[n].receipt.Some? :: ReceiptBacked(w, n))
    && (forall n, m, t :: Paid(w, n, t) && Paid(w, m, t) ==> n == m)
    && (forall t | t in w.demo.book.results && D.IsPayment(w.demo, t) :: t in foreign || exists n :: Paid(w, n, t))
    && (forall t | t in foreign :: t in w.demo.book.results)
    && (forall n, t | Paid(w, n, t) :: t !in foreign)
  }

  /** A key is in the provider's memory only if the intent it belongs to has claimed its approval. */
  ghost predicate KeysClaimed(w: World, others: Others) {
    forall k | k in w.demo.book.byKey && others.owner(k).Some? :: ApprovalIs(CaseOf(w, others.owner(k).value), Consumed)
  }

  ghost predicate Inv(w: World, others: Others) {
    Ids(w) && D.Sound(w.demo) && (forall n: nat :: Good(w, n))
    && Balanced(w, others.payments) && KeysClaimed(w, others)
  }

  // ----- steps that pay nothing

  /** No receipt, request or claim changed, and the provider recorded no payment. */
  ghost predicate Unpaid(w: World, t: World) {
    && D.Keeps(w.demo, t.demo)
    && (forall n: nat :: ReceiptAt(t, n) == ReceiptAt(w, n))
    && (forall n | n in w.deals.intents ::
          n in t.deals.intents && t.deals.intents[n].request == w.deals.intents[n].request
          && t.deals.intents[n].user == w.deals.intents[n].user)
    && (forall n: nat :: Until(w, n).Some? ==> Until(t, n) == Until(w, n))
    && (forall n: nat :: ApprovalIs(CaseOf(w, n), Consumed) ==> ApprovalIs(CaseOf(t, n), Consumed))
  }

  lemma {:induction false} BackedKept(d: D.Demo, e: D.Demo, user: string, q: Request, until: Option<int>, r: Receipt)
    requires Backed(d, user, q, until, r) && D.SameBounds(d, e)
    requires r.transaction in e.book.results && e.book.results[r.transaction] == d.book.results[r.transaction]
    ensures Backed(e, user, q, until, r)
  {
    D.DrawsOnStill(d, e, d.book.results[r.transaction].credential.value, user, q.alias, q.amount,
                   q.amount + q.tolerance, q.currency, until.value);
  }

  /** The same for a stored receipt, of an intent that keeps its user, its request and its approval's expiry. */
  lemma {:induction false} ReceiptKept(w: World, t: World, n: nat)
    requires n in w.deals.intents && w.deals.intents[n].receipt.Some? && ReceiptBacked(w, n)
    requires n in t.deals.intents && t.deals.intents[n].receipt == w.deals.intents[n].receipt
    requires t.deals.intents[n].request == w.deals.intents[n].request
             && t.deals.intents[n].user == w.deals.intents[n].user && (Until(w, n).Some? ==> Until(t, n) == Until(w, n))
    requires D.SameBounds(w.demo, t.demo)
    requires forall x | x in w.demo.book.results ::
               x in t.demo.book.results && t.demo.book.results[x] == w.demo.book.results[x]
    ensures ReceiptBacked(t, n)
  {
    var pi := w.deals.intents[n];
    BackedKept(w.demo, t.demo, pi.user, pi.request, Until(w, n), pi.receipt.value);
  }

  lemma {:induction false} UnpaidBalanced(w: World, t: World, foreign: set<nat>)
    requires Balanced(w, foreign) && Unpaid(w, t)
    ensures Balanced(t, foreign)
  {
    assert forall n, x :: Paid(t, n, x) == Paid(w, n, x);
    forall n | n in t.deals.intents && t.deals.intents[n].receipt.Some?
      ensures ReceiptBacked(t, n)
    {
      assert ReceiptAt(t, n) == ReceiptAt(w, n);
      ReceiptKept(w, t, n);
    }
  }

  lemma {:induction false} UnpaidKeys(w: World, t: World, others: Others)
    requires KeysClaimed(w, others) && Unpaid(w, t)
    ensures KeysClaimed(t, others)
  {
  }

  lemma {:induction false} CalmIsUnpaid(w: World, t: World, n: nat)
    requires forall m: nat :: Calm(w, t, n, m)
    ensures Unpaid(w, t) && Ids(t)
  {
    assert Calm(w, t, n, n);
    forall m: nat
      ensures ReceiptAt(t, m) == ReceiptAt(w, m)
      ensures m in w.deals.intents ==> m in t.deals.intents && t.deals.intents[m].request == w.deals.intents[m].request
                                       && t.deals.intents[m].user == w.deals.intents[m].user
      ensures Until(w, m).Some? ==> Until(t, m) == Until(w, m)
      ensures ApprovalIs(CaseOf(w, m), Consumed) ==> ApprovalIs(CaseOf(t, m), Consumed)
    {
      assert Calm(w, t, n, m);
      SameReceipt(w, t, n, m);
    }
  }

  lemma {:induction false} SameReceipt(w: World, t: World, n: nat, m: nat)
    requires Calm(w, t, n, m)
    ensures ReceiptAt(t, m) == ReceiptAt(w, m)
    ensures m in w.deals.intents ==> m in t.deals.intents && t.deals.intents[m].request == w.deals.intents[m].request
                                     && t.deals.intents[m].user == w.deals.intents[m].user
    ensures Until(w, m).Some? ==> Until(t, m) == Until(w, m)
    ensures ApprovalIs(CaseOf(w, m), Consumed) ==> ApprovalIs(CaseOf(t, m), Consumed)
  {
    if m != n {
      assert CaseOf(t, m).intent == CaseOf(w, m).intent;
    }
  }

  /** A step that pays nothing and keeps its own case good keeps everything. */
  lemma {:induction false} CalmKeeps(w: World, t: World, n: nat, others: Others)
    requires Inv(w, others) && Good(t, n) && forall m: nat :: Calm(w, t, n, m)
    ensures Inv(t, others)
  {
    CalmIsUnpaid(w, t, n);
    UnpaidBalanced(w, t, others.payments);
    UnpaidKeys(w, t, others);
    forall m: nat
      ensures Good(t, m)
    {
      assert Good(w, m) && Calm(w, t, n, m);
    }
    assert Calm(w, t, n, n);
  }

  // ----- the step that pays

  lemma {:induction false} DemoKeeps(w: World, d: D.Demo, others: Others)
    requires Inv(w, others) && D.Sound(d) && D.Keeps(w.demo, d)
    ensures Inv(WithDemo(w, d), others)
  {
    var t := WithDemo(w, d);
    assert forall m: nat :: CaseOf(t, m) == CaseOf(w, m);
    UnpaidBalanced(w, t, others.payments);
    forall m: nat
      ensures Good(t, m)
    {
      assert Good(w, m);
    }
  }

  /** A new payment, and the receipt for it on an intent that had none. */
  ghost predicate NewlyPaid(w: World, t: World, n: nat, r: D.PaymentResult) {
    && D.SameBounds(w.demo, t.demo)
    && t.demo.book.results == w.demo.book.results[w.demo.next := r] && r.refundOf == None
    && n in w.deals.intents && w.deals.intents[n].receipt == None
    && t.deals.intents.Keys == w.deals.intents.Keys
    && (forall m | m in w.deals.intents && m != n :: t.deals.intents[m] == w.deals.intents[m])
    && (forall m: nat | m != n :: Until(t, m) == Until(w, m))
    && t.deals.intents[n].receipt == Some(Receipt(w.demo.next, r.amount, r.currency)) && ReceiptBacked(t, n)
  }

  lemma {:induction false} ChargeBacks(w: World, t: World, n: nat, r: D.PaymentResult, foreign: set<nat>)
    requires Balanced(w, foreign) && D.Fresh(w.demo) && NewlyPaid(w, t, n, r)
    ensures forall m | m in t.deals.intents && t.deals.intents[m].receipt.Some? :: ReceiptBacked(t, m)
  {
    forall m | m in t.deals.intents && t.deals.intents[m].receipt.Some?
      ensures ReceiptBacked(t, m)
    {
      if m != n {
        assert m in w.deals.intents;
        ReceiptKept(w, t, m);
      }
    }
  }

  lemma {:induction false} ChargeBalances(w: World, t: World, n: nat, r: D.PaymentResult, foreign: set<nat>)
    requires Balanced(w, foreign) && D.Fresh(w.demo) && NewlyPaid(w, t, n, r)
    ensures Balanced(t, foreign)
  {
    ChargeBacks(w, t, n, r, foreign);
    assert forall m, x | m != n :: Paid(t, m, x) == Paid(w, m, x);
    assert forall x | Paid(t, n, x) :: x == w.demo.next;
    assert forall m, x | Paid(w, m, x) :: x in w.demo.book.results;
    forall x | x in t.demo.book.results && D.IsPayment(t.demo, x)
      ensures x in foreign || exists m :: Paid(t, m, x)
    {
      if x == w.demo.next {
        assert Paid(t, n, x);
      } else if x !in foreign {
        assert D.IsPayment(w.demo, x);
        var m :| Paid(w, m, x);
        assert Paid(t, m, x);
      }
    }
  }

  /** The intents after a settlement. */
  lemma {:induction false} SettledIntents(w: World, n: nat, r: D.PaymentResult)
    requires n in w.deals.intents
    ensures var t := Settle(w, n, Ok(r)).0;
            t.deals.intents == w.deals.intents[n := Received(w.deals.intents[n], r).(status := Landing(r.status))]
            && t.demo == w.demo
  {
  }

  /** Settling changes no approval. */
  lemma {:induction false} SettledUntil(w: World, d: D.Demo, n: nat, r: D.PaymentResult)
    requires n in w.deals.intents
    ensures var t := Settle(WithDemo(w, d), n, Ok(r)).0; forall m: nat :: Until(t, m) == Until(w, m)
  {
    var t := Settle(WithDemo(w, d), n, Ok(r)).0;
    assert t.deals.approvals == w.deals.approvals && t.deals.latest == w.deals.latest;
  }

  /** A credential is ready for the intent. */
  ghost predicate PreparedFor(w: World, n: nat, c: nat)
    requires n in w.deals.intents
  {
    && Until(w, n).Some?
    && Prepared(w.demo, c, w.deals.intents[n].user, w.deals.intents[n].request, Until(w, n).value, w.env.now)
  }

  lemma {:induction false} SettledBalanced(w: World, key: string, n: nat, c: nat, scenario: D.Scenario,
                                           foreign: set<nat>)
    requires Balanced(w, foreign) && D.Fresh(w.demo) && n in w.deals.intents && w.deals.intents[n].receipt == None
    requires PreparedFor(w, n, c) && (key == "" || key !in w.demo.book.byKey)
    ensures var q := w.deals.intents[n].request;
            var (d, r) := D.Paid(w.demo, key, c, q.amount, q.currency, scenario, w.env.now);
            Balanced(Settle(WithDemo(w, d), n, r).0, foreign)
  {
    var q := w.deals.intents[n].request;
    var (d, r) := D.Paid(w.demo, key, c, q.amount, q.currency, scenario, w.env.now);
    D.PaidFresh(w.demo, key, c, q.amount, q.currency, scenario, w.env.now);
    var t := Settle(WithDemo(w, d), n, r).0;
    SettledIntents(WithDemo(w, d), n, r.value);
    SettledUntil(w, d, n, r.value);
    if scenario == D.Plain {
      var pi := w.deals.intents[n];
      D.DrawsOnStill(w.demo, d, c, pi.user, q.alias, q.amount, q.amount + q.tolerance, q.currency, Until(w, n).value);
      ChargeBalances(w, t, n, r.value, foreign);
    } else {
      SetbackBalances(w, t, foreign);
    }
  }

  lemma {:induction false} SetbackBalances(w: World, t: World, foreign: set<nat>)
    requires Balanced(w, foreign) && D.SameBounds(w.demo, t.demo) && t.demo.book.results == w.demo.book.results
    requires t.deals.intents.Keys == w.deals.intents.Keys
    requires forall m | m in w.deals.intents :: t.deals.intents[m].receipt == w.deals.intents[m].receipt
                                                && t.deals.intents[m].request == w.deals.intents[m].request
                                                && t.deals.intents[m].user == w.deals.intents[m].user
    requires forall m: nat :: Until(t, m) == Until(w, m)
    ensures Balanced(t, foreign)
  {
    assert forall n, x :: Paid(t, n, x) == Paid(w, n, x);
    forall m | m in t.deals.intents && t.deals.intents[m].receipt.Some?
      ensures ReceiptBacked(t, m)
    {
      assert m in w.deals.intents;
      ReceiptKept(w, t, m);
    }
  }

  lemma {:induction false} SettledKeepsCase(w: World, key: string, n: nat, c: nat, scenario: D.Scenario)
    requires Ids(w) && Good(w, n) && D.Fresh(w.demo)
    requires n in w.deals.intents && w.deals.intents[n].status == S.Processing && ApprovalIs(CaseOf(w, n), Consumed)
    requires PreparedFor(w, n, c) && (key == "" || key !in w.demo.book.byKey)
    ensures var q := w.deals.intents[n].request;
            var (d, r) := D.Paid(w.demo, key, c, q.amount, q.currency, scenario, w.env.now);
            var t := Settle(WithDemo(w, d), n, r).0;
            Good(t, n) && ApprovalIs(CaseOf(t, n), Consumed)
  {
    var q := w.deals.intents[n].request;
    var (d, r) := D.Paid(w.demo, key, c, q.amount, q.currency, scenario, w.env.now);
    D.PaidFresh(w.demo, key, c, q.amount, q.currency, scenario, w.env.now);
    assert CaseOf(WithDemo(w, d), n) == CaseOf(w, n);
    SettleKeeps(WithDemo(w, d), n, r);
  }

  lemma {:induction false} SettledBeside(w: World, d: D.Demo, n: nat, r: Result<D.PaymentResult, Error>, m: nat)
    requires Ids(w) && n in w.deals.intents
    ensures Beside(w, Settle(WithDemo(w, d), n, r).0, n, m) && Settle(WithDemo(w, d), n, r).0.demo == d
  {
    assert CaseOf(WithDemo(w, d), m) == CaseOf(w, m);
    SettleBeside(WithDemo(w, d), n, r, m);
  }

  lemma {:induction false} GoodBeside(w: World, t: World, n: nat, m: nat)
    requires Good(w, m) && Good(t, n) && Beside(w, t, n, m)
    ensures Good(t, m)
  {
  }

  lemma {:induction false} SettledKeys(w: World, t: World, n: nat, key: string, r: D.PaymentResult, others: Others)
    requires KeysClaimed(w, others) && ApprovalIs(CaseOf(t, n), Consumed) && (key == "" || others.owner(key) == Some(n))
    requires forall m: nat :: Beside(w, t, n, m)
    requires t.demo.book.byKey == if key == "" then w.demo.book.byKey else w.demo.book.byKey[key := r]
    ensures KeysClaimed(t, others)
  {
    forall k | k in t.demo.book.byKey && others.owner(k).Some?
      ensures ApprovalIs(CaseOf(t, others.owner(k).value), Consumed)
    {
      assert Beside(w, t, n, others.owner(k).value);
    }
  }

  /** The provider's call and its settlement keep the books balanced. */
  lemma {:induction false} SettledKeeps(w: World, key: string, n: nat, c: nat, scenario: D.Scenario, others: Others)
    requires Inv(w, others) && n in w.deals.intents && w.deals.intents[n].status == S.Processing
    requires ApprovalIs(CaseOf(w, n), Consumed) && PreparedFor(w, n, c)
    requires key == "" || (key !in w.demo.book.byKey && others.owner(key) == Some(n))
    ensures var q := w.deals.intents[n].request;
            var (d, r) := D.Paid(w.demo, key, c, q.amount, q.currency, scenario, w.env.now);
            Inv(Settle(WithDemo(w, d), n, r).0, others)
  {
    var q := w.deals.intents[n].request;
    var (d, r) := D.Paid(w.demo, key, c, q.amount, q.currency, scenario, w.env.now);
    var t := Settle(WithDemo(w, d), n, r).0;
    assert Good(w, n);
    D.PaidFresh(w.demo, key, c, q.amount, q.currency, scenario, w.env.now);
    D.PayingIsSound(w.demo, key, c, q.amount, q.currency, scenario, w.env.now);
    SettledKeepsCase(w, key, n, c, scenario);
    SettledBalanced(w, key, n, c, scenario, others.payments);
    forall m: nat
      ensures Beside(w, t, n, m)
    {
      SettledBeside(w, d, n, r, m);
    }
    SettledBeside(w, d, n, r, n);
    SettledKeys(w, t, n, key, r.value, others);
    forall m: nat
      ensures Good(t, m)
    {
      assert Good(w, m) && Beside(w, t, n, m);
      GoodBeside(w, t, n, m);
    }
  }

  // ----- Execute

  lemma {:induction false} PayInv(w: World, key: string, n: nat, a: nat, c: nat, scenario: D.Scenario, others: Others)
    requires Inv(w, others) && Underway(w, n, a) && PreparedFor(w, n, c)
    requires key == "" || others.owner(key) == Some(n)
    ensures Inv(Pay(w, key, n, a, c, scenario).0, others)
  {
    var t := Claimed(w, n, a);
    ClaimedKeeps(w, n, a);
    forall m: nat
      ensures Calm(w, t, n, m)
    {
      ClaimedCalm(w, n, a, m);
    }
    CalmKeeps(w, t, n, others);
    assert key != "" ==> key !in w.demo.book.byKey by {
      assert !ApprovalIs(CaseOf(w, n), Consumed);
    }
    ClaimedCalm(w, n, a, n);
    SettledKeeps(t, key, n, c, scenario, others);
  }

  lemma {:induction false} MovedInv(w: World, n: nat, to: S.State, others: Others)
    requires Inv(w, others) && n in w.deals.intents && S.CanTransition(w.deals.intents[n].status, to)
    requires to != S.Succeeded && !Early(to) && to != S.Authorized
    ensures Inv(Moved(w, n, to), others)
  {
    assert Good(w, n);
    StoredKeeps(w, n, w.deals.intents[n], to);
    forall m: nat
      ensures Calm(w, Moved(w, n, to), n, m)
    {
      StoredCalm(w, n, w.deals.intents[n], to, m);
    }
    CalmKeeps(w, Moved(w, n, to), n, others);
  }

  /** The world once preparation has been tried. */
  lemma {:induction false} PreparingInv(w: World, n: nat, a: nat, others: Others)
    requires Inv(w, others) && n in w.deals.latest && w.deals.latest[n] == a
    requires w.deals.intents[n].status == S.Authorized && w.deals.approvals[a].status == Approved
    ensures var (u, c) := Preparing(w, n, a);
            && Inv(u, others) && Underway(u, n, a)
            && (c.Ok? ==> PreparedFor(u, n, c.value))
  {
    var pi := w.deals.intents[n];
    var t := Moved(w, n, S.CredentialPreparing);
    assert Good(w, n);
    MovedInv(w, n, S.CredentialPreparing, others);
    PreparingKeeps(w, n, a);
    var d := Prepare(t.demo, pi.user, pi.request, t.deals.approvals[a].expiresAt, t.env.now).0;
    PrepareIsSound(t.demo, pi.user, pi.request, t.deals.approvals[a].expiresAt, t.env.now);
    PrepareKeeps(t.demo, pi.user, pi.request, t.deals.approvals[a].expiresAt, t.env.now);
    PrepareResult(t.demo, pi.user, pi.request, t.deals.approvals[a].expiresAt, t.env.now);
    DemoKeeps(t, d, others);
    assert CaseOf(WithDemo(t, d), n) == CaseOf(t, n);
  }

  lemma {:induction false} ProceedInv(w: World, key: string, n: nat, a: nat, c: Result<nat, Error>,
                                      scenario: D.Scenario,
                                      others: Others)
    requires Inv(w, others) && Underway(w, n, a) && (key == "" || others.owner(key) == Some(n))
    requires c.Ok? ==> n in w.deals.intents && PreparedFor(w, n, c.value)
    ensures Inv(Proceed(w, key, n, a, c, scenario).0, others)
  {
    if c.Err? {
      MovedInv(w, n, S.ProviderUnavailable, others);
    } else {
      PayInv(w, key, n, a, c.value, scenario, others);
    }
  }

  lemma {:induction false} ExecuteOnceInv(w: World, key: string, agent: string, n: nat, scenario: D.Scenario,
                                          others: Others)
    requires Inv(w, others) && (key == "" || others.owner(key) == Some(n))
    ensures Inv(ExecuteOnce(w, key, agent, n, scenario).0, others)
  {
    var a := Ready(w, agent, n);
    if a.Ok? {
      PreparingInv(w, n, a.value, others);
      var (t, c) := Preparing(w, n, a.value);
      ProceedInv(t, key, n, a.value, c, scenario, others);
    }
  }

  lemma {:induction false} RememberedInv(w: World, key: string, n: nat, r: Result<Outcome, Error>, others: Others)
    requires Inv(w, others)
    ensures Inv(Remembered(w, key, n, r), others)
  {
    var t := Remembered(w, key, n, r);
    forall m: nat
      ensures CaseOf(t, m) == CaseOf(w, m) && Good(t, m)
    {
      assert Good(w, m);
    }
    UnpaidBalanced(w, t, others.payments);
  }

  lemma {:induction false} ExecuteInv(w: World, key: string, agent: string, n: nat, scenario: D.Scenario,
                                      others: Others)
    requires Inv(w, others) && (key == "" || others.owner(key) == Some(n))
    ensures Inv(Execute(w, key, agent, n, scenario).0, others)
  {
    ExecuteOnceInv(w, key, agent, n, scenario, others);
    var (t, r) := ExecuteOnce(w, key, agent, n, scenario);
    RememberedInv(t, key, n, r, others);
  }

  // ----- runs

  /** The step uses an idempotency key, if any, for the intent the key belongs to, and a payment from elsewhere
      none that belongs to an intent. */
  predicate Respects(op: Op, owner: string -> Option<nat>) {
    && (op.Asks? && op.ask.Executing? && op.ask.key != "" ==> owner(op.ask.key) == Some(op.ask.intent))
    && (op.ProviderPays? && op.key != "" ==> owner(op.key) == None)
  }

  /** The transactions a step adds to those that others made. */
  function Foreign(w: World, op: Op): set<nat> {
    if op.ProviderPays? then Step(w, op).demo.book.results.Keys - w.demo.book.results.Keys else {}
  }

  /** The transactions that others made in a run. */
  function ForeignPayments(w: World, ops: seq<Op>): set<nat> {
    if ops == [] then {}
    else
      var init := ops[..|ops| - 1];
      ForeignPayments(w, init) + Foreign(Run(w, init), ops[|ops| - 1])
  }

  lemma {:induction false} AskedInv(w: World, agent: string, ask: Ask, others: Others)
    requires Inv(w, others) && Respects(Asks(agent, ask), others.owner)
    ensures Inv(Asked(w, agent, ask), others)
  {
    match ask
    case Creating(q) =>
      var n := w.deals.next;
      assert Good(w, n);
      CreateKeeps(w, agent, q);
      forall m: nat
        ensures Calm(w, Create(w, agent, q).0, n, m)
      {
        CreateCalm(w, agent, q, m);
      }
      CalmKeeps(w, Create(w, agent, q).0, n, others);
    case Executing(key, n, scenario) => ExecuteInv(w, key, agent, n, scenario, others);
    case Revoking(n) =>
      assert Good(w, n);
      RevokeKeeps(w, agent, n);
      forall m: nat
        ensures Calm(w, Revoke(w, agent, n).0, n, m)
      {
        RevokeCalm(w, agent, n, m);
      }
      CalmKeeps(w, Revoke(w, agent, n).0, n, others);
  }

  lemma {:induction false} DecisionInv(w: World, user: string, a: nat, others: Others)
    requires Inv(w, others)
    ensures Inv(Approve(w, user, a).0, others) && Inv(Reject(w, user, a).0, others)
  {
    var n := ParentOf(w, a);
    assert Good(w, n);
    ApproveKeeps(w, user, a);
    RejectKeeps(w, user, a);
    forall m: nat
      ensures Calm(w, Approve(w, user, a).0, n, m) && Calm(w, Reject(w, user, a).0, n, m)
    {
      ApproveCalm(w, user, a, m);
      RejectCalm(w, user, a, m);
    }
    CalmKeeps(w, Approve(w, user, a).0, n, others);
    CalmKeeps(w, Reject(w, user, a).0, n, others);
  }

  /** A call from elsewhere that is not a payment leaves the books as they are. */
  lemma {:induction false} CallKeeps(d: D.Demo, op: Op, now: int)
    requires D.Sound(d) && IsProviders(op) && !op.ProviderPays?
    ensures D.Sound(Called(d, op, now)) && D.Keeps(d, Called(d, op, now))
  {
    match op
    case ProviderRegisters(user, alias) =>
      D.RegisteringIsSound(d, user, alias);
      D.RegisteredKeeps(d, user, alias);
    case ProviderDelegates(source, amount, currency, expiresAt) =>
      D.DelegatingIsSound(d, source, amount, currency, expiresAt);
      D.DelegatedKeeps(d, source, amount, currency, expiresAt);
    case ProviderMints(a, amount, currency) =>
      D.MintingIsSound(d, a, amount, currency, now);
      D.MintedKeeps(d, a, amount, currency, now);
    case ProviderRevokes(a) =>
      D.RevokingIsSound(d, a);
      D.RevokedKeeps(d, a);
    case ProviderRefunds(t, amount, currency) =>
      D.RefundingIsSound(d, t, amount, currency);
      D.RefundedKeeps(d, t, amount, currency);
  }

  /** New payments that others made, and nobody's receipt. */
  lemma {:induction false} ForeignBalances(w: World, e: D.Demo, foreign: set<nat>)
    requires Balanced(w, foreign) && D.SameBounds(w.demo, e)
    requires forall t | t in w.demo.book.results :: t in e.book.results && e.book.results[t] == w.demo.book.results[t]
    ensures Balanced(WithDemo(w, e), foreign + (e.book.results.Keys - w.demo.book.results.Keys))
  {
    var t := WithDemo(w, e);
    assert forall n, x :: Paid(t, n, x) == Paid(w, n, x);
    assert forall n, x | Paid(w, n, x) :: x in w.demo.book.results;
    forall m | m in t.deals.intents && t.deals.intents[m].receipt.Some?
      ensures ReceiptBacked(t, m)
    {
      ReceiptKept(w, t, m);
    }
    forall x | x in e.book.results && D.IsPayment(e, x) && x in w.demo.book.results && x !in foreign
      ensures exists n :: Paid(t, n, x)
    {
      assert D.IsPayment(w.demo, x);
      var n :| Paid(w, n, x);
      assert Paid(t, n, x);
    }
  }

  /** A payment from elsewhere takes nobody's receipt and no intent's key. */
  lemma {:induction false} ForeignInv(w: World, op: Op, others: Others)
    requires Inv(w, others) && Respects(op, others.owner) && op.ProviderPays?
    ensures Inv(Step(w, op), others.(payments := others.payments + Foreign(w, op)))
  {
    var e := Called(w.demo, op, w.env.now);
    D.PayingIsSound(w.demo, op.key, op.credential, op.payAmount, op.payCurrency, op.scenario, w.env.now);
    D.PayingAdds(w.demo, op.key, op.credential, op.payAmount, op.payCurrency, op.scenario, w.env.now);
    ForeignBalances(w, e, others.payments);
    ForeignCases(w, e);
    ForeignKeys(w, op, others);
  }

  lemma {:induction false} ForeignCases(w: World, e: D.Demo)
    requires Ids(w) && forall m: nat :: Good(w, m)
    ensures Ids(WithDemo(w, e)) && forall m: nat :: Good(WithDemo(w, e), m)
  {
    forall m: nat
      ensures Good(WithDemo(w, e), m)
    {
      assert Good(w, m) && CaseOf(WithDemo(w, e), m) == CaseOf(w, m);
    }
  }

  lemma {:induction false} ForeignKeys(w: World, op: Op, others: Others)
    requires KeysClaimed(w, others) && Respects(op, others.owner) && op.ProviderPays? && D.Fresh(w.demo)
    ensures KeysClaimed(WithDemo(w, Called(w.demo, op, w.env.now)), others)
  {
    var t := WithDemo(w, Called(w.demo, op, w.env.now));
    D.PayingAdds(w.demo, op.key, op.credential, op.payAmount, op.payCurrency, op.scenario, w.env.now);
    assert forall m: nat :: CaseOf(t, m) == CaseOf(w, m);
  }

  lemma {:induction false} ProviderInv(w: World, op: Op, others: Others)
    requires Inv(w, others) && Respects(op, others.owner) && IsProviders(op)
    ensures Inv(Step(w, op), others.(payments := others.payments + Foreign(w, op)))
  {
    if op.ProviderPays? {
      ForeignInv(w, op, others);
    } else {
      CallKeeps(w.demo, op, w.env.now);
      DemoKeeps(w, Called(w.demo, op, w.env.now), others);
      assert others.payments + {} == others.payments;
    }
  }

  lemma {:induction false} EnvInv(w: World, env: Env, others: Others)
    requires Inv(w, others)
    ensures Inv(w.(env := env), others)
  {
    var t := w.(env := env);
    assert forall m: nat :: CaseOf(t, m) == CaseOf(w, m);
    forall m: nat
      ensures Good(t, m)
    {
      assert Good(w, m);
    }
    UnpaidBalanced(w, t, others.payments);
  }

  lemma {:induction false} StepInv(w: World, op: Op, others: Others)
    requires Inv(w, others) && Respects(op, others.owner)
    ensures Inv(Step(w, op), others.(payments := others.payments + Foreign(w, op)))
  {
    assert others.payments + {} == others.payments;
    match op
    case Asks(agent, ask) => AskedInv(w, agent, ask, others);
    case Approves(user, a) => DecisionInv(w, user, a, others);
    case Rejects(user, a) => DecisionInv(w, user, a, others);
    case EnvChanges(env) => EnvInv(w, env, others);
    case _ => ProviderInv(w, op, others);
  }

  lemma {:induction false} FreshInv(w: World, owner: string -> Option<nat>)
    requires Fresh(w)
    ensures Inv(w, Others(owner, {}))
  {
    D.NewIsSound();
  }

  lemma {:induction false} RunInv(w: World, ops: seq<Op>, owner: string -> Option<nat>)
    requires Fresh(w) && forall k | 0 <= k < |ops| :: Respects(ops[k], owner)
    ensures Inv(Run(w, ops), Others(owner, ForeignPayments(w, ops)))
  {
    if ops == [] {
      FreshInv(w, owner);
    } else {
      var init := ops[..|ops| - 1];
      assert forall k | 0 <= k < |init| :: init[k] == ops[k];
      RunInv(w, init, owner);
      StepInv(Run(w, init), ops[|ops| - 1], Others(owner, ForeignPayments(w, init)));
    }
  }

  // ----- the guarantees

  /** Every intent of a run: SUCCEEDED exactly when it has a receipt; the receipt is for a recorded payment of the
      requested amount, on a credential within amount plus tolerance; and its approval is consumed. */
  lemma {:induction false} SuccessIsOnePayment(w: World, ops: seq<Op>, owner: string -> Option<nat>, n: nat)
    requires Fresh(w) && forall k | 0 <= k < |ops| :: Respects(ops[k], owner)
    requires n in Run(w, ops).deals.intents
    ensures var t := Run(w, ops);
            var pi := t.deals.intents[n];
            && (pi.receipt.Some? <==> pi.status == S.Succeeded)
            && (pi.receipt.Some? ==>
                  && n in t.deals.latest && t.deals.latest[n] in t.deals.approvals
                  && var a := t.deals.approvals[t.deals.latest[n]];
                     a.status == Consumed && Backed(t.demo, pi.user, pi.request, Some(a.expiresAt), pi.receipt.value))
            && (pi.status == S.Authorized ==> n in t.deals.latest && t.deals.latest[n] in t.deals.approvals
                                              && t.deals.approvals[t.deals.latest[n]].status == Approved)
  {
    RunInv(w, ops, owner);
    assert Good(Run(w, ops), n);
  }

  /** The source a recorded payment was drawn on. */
  function SourceOf(d: D.Demo, x: nat): Option<nat> {
    if x !in d.book.results || d.book.results[x].credential == None then None
    else
      var c := d.book.results[x].credential.value;
      if c !in d.vault.credentials || d.vault.credentials[c].authorization !in d.vault.authorizations then None
      else Some(d.vault.authorizations[d.vault.credentials[c].authorization].source)
  }

  /** Each receipt of a run is drawn on the source that is registered for its user and alias, so the receipts of two
      intents are drawn on one source exactly if those keys are the same. */
  lemma {:induction false} ReceiptsDrawOnTheirOwn(w: World, ops: seq<Op>, owner: string -> Option<nat>, n: nat, m: nat)
    requires Fresh(w) && forall k | 0 <= k < |ops| :: Respects(ops[k], owner)
    requires var t := Run(w, ops).deals.intents;
             n in t && t[n].receipt.Some? && m in t && t[m].receipt.Some?
    ensures var t := Run(w, ops);
            var pi, pj := t.deals.intents[n], t.deals.intents[m];
            var key, key' := D.SourceKey(pi.user, pi.request.alias), D.SourceKey(pj.user, pj.request.alias);
            && key in t.demo.vault.sourcesByKey
            && SourceOf(t.demo, pi.receipt.value.transaction) == Some(t.demo.vault.sourcesByKey[key])
            && (SourceOf(t.demo, pi.receipt.value.transaction) == SourceOf(t.demo, pj.receipt.value.transaction)
                <==> key == key')
  {
    var t := Run(w, ops);
    RunInv(w, ops, owner);
    var pi, pj := t.deals.intents[n], t.deals.intents[m];
    assert ReceiptBacked(t, n) && ReceiptBacked(t, m);
    D.SourcesOfTwo(t.demo, t.demo.book.results[pi.receipt.value.transaction].credential.value, pi.user,
                   pi.request.alias, pi.request.amount, pi.request.amount + pi.request.tolerance, pi.request.currency,
                   Until(t, n).value,
                   t.demo.book.results[pj.receipt.value.transaction].credential.value, pj.user, pj.request.alias,
                   pj.request.amount, pj.request.amount + pj.request.tolerance, pj.request.currency,
                   Until(t, m).value);
  }

  /** The provider's payments that others did not make and the intents that succeeded correspond one to one; a
      payment that others made is nobody's; and no credential paid twice. */
  lemma {:induction false} PaymentsMatchIntents(w: World, ops: seq<Op>, owner: string -> Option<nat>, x: nat, y: nat)
    returns (n: nat)
    requires Fresh(w) && forall k | 0 <= k < |ops| :: Respects(ops[k], owner)
    requires D.IsPayment(Run(w, ops).demo, x)
    ensures var t := Run(w, ops);
            && (forall m :: Paid(t, m, x) <==> x !in ForeignPayments(w, ops) && m == n)
            && (D.IsPayment(t.demo, y) && t.demo.book.results[x].credential == t.demo.book.results[y].credential ==>
                  x == y)
  {
    RunInv(w, ops, owner);
    var t := Run(w, ops);
    n := 0;
    if x !in ForeignPayments(w, ops) {
      n :| Paid(t, n, x);
    }
    if D.IsPayment(t.demo, y) && t.demo.book.results[x].credential == t.demo.book.results[y].credential {
      D.CredentialsPayOnce(t.demo, x, y);
    }
  }

  /** The audit log replays to the stored status. */
  lemma {:induction false} AuditReplays(w: World, ops: seq<Op>, owner: string -> Option<nat>, n: nat)
    requires Fresh(w) && forall k | 0 <= k < |ops| :: Respects(ops[k], owner)
    requires n in Run(w, ops).deals.intents
    ensures var t := Run(w, ops);
            var es := StateEvents(t.record.audit, n);
            Chained(S.CanTransition, S.Draft, es) && es[|es| - 1].next == Some(t.deals.intents[n].status)
  {
    var t := Run(w, ops);
    RunInv(w, ops, owner);
    assert Good(t, n);
    ReplayMeans(S.CanTransition, S.Draft, t.record.audit, n);
  }

  lemma {:induction false} ChainMilestones(es: seq<Event<S.State>>) returns (v: nat, a: nat, c: nat, p: nat)
    requires Chained(S.CanTransition, S.Draft, es) && es[|es| - 1].next == Some(S.Succeeded)
    ensures 0 < v < a < c < p < |es| - 1
    ensures es[v].next == Some(S.PolicyEvaluating) && es[a].next == Some(S.Authorized)
    ensures es[c].next == Some(S.CredentialPreparing) && es[p].next == Some(S.Processing)
  {
    var path := ChainIsPath(S.CanTransition, S.Draft, es);
    v, a, c, p := S.Milestones(path);
  }

  /** So every payment left, in order, an evaluation, an authorization, a preparation and a processing event. */
  lemma {:induction false} PaymentIsAudited(w: World, ops: seq<Op>, owner: string -> Option<nat>, n: nat)
    returns (v: nat, a: nat, c: nat, p: nat)
    requires Fresh(w) && forall k | 0 <= k < |ops| :: Respects(ops[k], owner)
    requires n in Run(w, ops).deals.intents && Run(w, ops).deals.intents[n].receipt.Some?
    ensures var es := StateEvents(Run(w, ops).record.audit, n);
            && 0 < v < a < c < p < |es| - 1
            && es[v].next == Some(S.PolicyEvaluating) && es[a].next == Some(S.Authorized)
            && es[c].next == Some(S.CredentialPreparing) && es[p].next == Some(S.Processing)
  {
    SuccessIsOnePayment(w, ops, owner, n);
    AuditReplays(w, ops, owner, n);
    v, a, c, p := ChainMilestones(StateEvents(Run(w, ops).record.audit, n));
  }
}
