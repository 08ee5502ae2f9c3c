/** Executing an agentic payment: what it does to its intent and to the provider's book. */
module PaymentExecution {
  import opened Results
  import opened Approvals
  import opened PaymentFlow
  import opened PaymentInvariants
  import S = PaymentStates
  import D = PaymentDemo

  // ----- preparing a credential

  /** A credential of the user's for a request: the whole amount, within amount plus tolerance, drawn on the source
      registered for the user and the alias asked for, until the approval expires. */
  ghost predicate ForRequest(d: D.Demo, c: nat, user: string, q: Request, until: int) {
    D.DrawsOn(d, c, user, q.alias, q.amount, q.amount + q.tolerance, q.currency, until)
  }

  /** Such a credential, alive and unused. */
  ghost predicate Prepared(d: D.Demo, c: nat, user: string, q: Request, until: int, now: int) {
    && ForRequest(d, c, user, q, until)
    && !d.vault.credentials[c].Consumed() && now <= d.vault.credentials[c].expiresAt
  }

  lemma {:induction false} MintedPrepared(d: D.Demo, source: nat, user: string, q: Request, expiresAt: int, now: int)
    requires source in d.vault.sources
    requires D.SourceKey(user, q.alias) in d.vault.sourcesByKey
             && d.vault.sourcesByKey[D.SourceKey(user, q.alias)] == source
    ensures var (e, c) := DelegateAndMint(d, source, q, expiresAt, now);
            && (c.Ok? <==> now <= expiresAt && q.tolerance >= 0)
            && (c.Ok? ==> Prepared(e, c.value, user, q, expiresAt, now))
  {
  }

  lemma {:induction false} MintedSound(d: D.Demo, source: nat, q: Request, expiresAt: int, now: int)
    requires D.Sound(d) && source in d.vault.sources
    ensures D.Sound(DelegateAndMint(d, source, q, expiresAt, now).0)
  {
    D.DelegatingIsSound(d, source, q.amount + q.tolerance, q.currency, expiresAt);
    var e := D.Delegated(d, source, q.amount + q.tolerance, q.currency, expiresAt).0;
    D.MintingIsSound(e, d.next, q.amount, q.currency, now);
    MintedAs(d, source, q, expiresAt, now);
  }

  /** A known source is delegated, and then minted on. */
  lemma {:induction false} MintedAs(d: D.Demo, source: nat, q: Request, expiresAt: int, now: int)
    requires source in d.vault.sources
    ensures var e := D.Delegated(d, source, q.amount + q.tolerance, q.currency, expiresAt).0;
            DelegateAndMint(d, source, q, expiresAt, now) == D.Minted(e, d.next, q.amount, q.currency, now)
  {
  }

  lemma {:induction false} MintedKept(d: D.Demo, source: nat, q: Request, expiresAt: int, now: int)
    requires D.Fresh(d) && source in d.vault.sources
    ensures D.Keeps(d, DelegateAndMint(d, source, q, expiresAt, now).0)
  {
    D.DelegatedKeeps(d, source, q.amount + q.tolerance, q.currency, expiresAt);
    DelegatedFresh(d, source, q.amount + q.tolerance, q.currency, expiresAt);
    var e := D.Delegated(d, source, q.amount + q.tolerance, q.currency, expiresAt).0;
    D.MintedKeeps(e, d.next, q.amount, q.currency, now);
    MintedAs(d, source, q, expiresAt, now);
    D.KeepsTransitive(d, e, D.Minted(e, d.next, q.amount, q.currency, now).0);
  }

  lemma {:induction false} DelegatedFresh(d: D.Demo, source: nat, maxAmount: int, currency: string, expiresAt: int)
    requires D.Fresh(d)
    ensures D.Fresh(D.Delegated(d, source, maxAmount, currency, expiresAt).0)
  {
  }

  lemma {:induction false} PrepareIsSound(d: D.Demo, user: string, q: Request, expiresAt: int, now: int)
    requires D.Sound(d)
    ensures D.Sound(Prepare(d, user, q, expiresAt, now).0)
  {
    var (r, source) := D.Registered(d, user, q.alias);
    D.RegisteringIsSound(d, user, q.alias);
    D.RegisteredKeeps(d, user, q.alias);
    MintedSound(r, source, q, expiresAt, now);
  }

  /** Preparation never touches what the provider has recorded. */
  lemma {:induction false} PrepareKeeps(d: D.Demo, user: string, q: Request, expiresAt: int, now: int)
    requires D.Sound(d)
    ensures D.Keeps(d, Prepare(d, user, q, expiresAt, now).0)
  {
    var (r, source) := D.Registered(d, user, q.alias);
    D.RegisteredKeeps(d, user, q.alias);
    D.RegisteringIsSound(d, user, q.alias);
    MintedKept(r, source, q, expiresAt, now);
    D.KeepsTransitive(d, r, DelegateAndMint(r, source, q, expiresAt, now).0);
  }

  /** It fails exactly when the approval has expired or the tolerance is negative; otherwise there is a live
      credential for the whole amount, within amount plus tolerance, on the user's own source. */
  lemma {:induction false} PrepareResult(d: D.Demo, user: string, q: Request, expiresAt: int, now: int)
    requires D.Sound(d)
    ensures var (e, c) := Prepare(d, user, q, expiresAt, now);
            && (c.Ok? <==> now <= expiresAt && q.tolerance >= 0)
            && (c.Ok? ==> Prepared(e, c.value, user, q, expiresAt, now))
  {
    var (r, source) := D.Registered(d, user, q.alias);
    D.RegisteredKeeps(d, user, q.alias);
    MintedPrepared(r, source, user, q, expiresAt, now);
  }

  // ----- the intent being executed

  /** An intent part-way through Execute, its approval not yet claimed. */
  ghost predicate Underway(w: World, n: nat, a: nat) {
    && Ids(w) && n in w.deals.intents && n in w.deals.latest && w.deals.latest[n] == a
    && w.deals.approvals[a].status == Approved && w.deals.intents[n].status == S.CredentialPreparing
    && Good(w, n)
  }

  lemma {:induction false} PreparingKeeps(w: World, n: nat, a: nat)
    requires Ids(w) && Good(w, n) && n in w.deals.latest && w.deals.latest[n] == a
    requires w.deals.intents[n].status == S.Authorized && w.deals.approvals[a].status == Approved
    ensures Underway(Moved(w, n, S.CredentialPreparing), n, a)
  {
    StoredKeeps(w, n, w.deals.intents[n], S.CredentialPreparing);
    StoredCalm(w, n, w.deals.intents[n], S.CredentialPreparing, n);
  }

  lemma {:induction false} ReadyKeeps(w: World, n: nat, a: nat)
    requires Underway(w, n, a)
    ensures var c := WithStatus(Moved(w, n, S.ReadyToExecute), a, Consumed);
            && Ids(c) && Good(c, n) && n in c.deals.intents && c.demo == w.demo
            && c.deals.intents[n] == w.deals.intents[n].(status := S.ReadyToExecute)
            && ApprovalIs(CaseOf(c, n), Consumed) && Until(c, n) == Until(w, n)
  {
    var r := Moved(w, n, S.ReadyToExecute);
    StoredKeeps(w, n, w.deals.intents[n], S.ReadyToExecute);
    StoredCalm(w, n, w.deals.intents[n], S.ReadyToExecute, n);
    RowCase(r, a, r.deals.approvals[a].(status := Consumed), n);
  }

  lemma {:induction false} ClaimedKeeps(w: World, n: nat, a: nat)
    requires Underway(w, n, a)
    ensures var t := Claimed(w, n, a);
            && Ids(t) && Good(t, n) && n in t.deals.intents
            && t.deals.intents[n] == w.deals.intents[n].(status := S.Processing)
            && ApprovalIs(CaseOf(t, n), Consumed) && t.demo == w.demo && Until(t, n) == Until(w, n)
  {
    ReadyKeeps(w, n, a);
    ProcessingKeeps(WithStatus(Moved(w, n, S.ReadyToExecute), a, Consumed), n);
  }

  lemma {:induction false} ProcessingKeeps(c: World, n: nat)
    requires Ids(c) && Good(c, n) && n in c.deals.intents && c.deals.intents[n].status == S.ReadyToExecute
    requires ApprovalIs(CaseOf(c, n), Consumed)
    ensures var t := Moved(c, n, S.Processing);
            && Ids(t) && Good(t, n) && n in t.deals.intents
            && t.deals.intents[n] == c.deals.intents[n].(status := S.Processing)
            && ApprovalIs(CaseOf(t, n), Consumed) && t.demo == c.demo && Until(t, n) == Until(c, n)
  {
    StoredKeeps(c, n, c.deals.intents[n], S.Processing);
    StoredCalm(c, n, c.deals.intents[n], S.Processing, n);
  }

  lemma {:induction false} ClaimedCalm(w: World, n: nat, a: nat, m: nat)
    requires Underway(w, n, a)
    ensures Calm(w, Claimed(w, n, a), n, m)
  {
    var r := Moved(w, n, S.ReadyToExecute);
    StoredCalm(w, n, w.deals.intents[n], S.ReadyToExecute, m);
    var c := WithStatus(r, a, Consumed);
    RowCase(r, a, r.deals.approvals[a].(status := Consumed), m);
    StoredCalm(c, n, c.deals.intents[n], S.Processing, m);
    ClaimedKeeps(w, n, a);
  }

  /** A result that, if it is a success, is for what the intent asked. */
  predicate Fitting(pi: Intent, r: Result<D.PaymentResult, Error>) {
    r.Ok? && r.value.status == D.Succeeded ==>
      r.value.transaction.Some? && r.value.amount == pi.request.amount && r.value.currency == pi.request.currency
  }

  lemma {:induction false} SettleKeeps(w: World, n: nat, r: Result<D.PaymentResult, Error>)
    requires Ids(w) && Good(w, n) && n in w.deals.intents && w.deals.intents[n].status == S.Processing
    requires ApprovalIs(CaseOf(w, n), Consumed) && Fitting(w.deals.intents[n], r)
    ensures Good(Settle(w, n, r).0, n) && ApprovalIs(CaseOf(Settle(w, n, r).0, n), Consumed)
    ensures Until(Settle(w, n, r).0, n) == Until(w, n)
  {
    var pi := w.deals.intents[n];
    if r.Err? {
      StoredCase(w, n, pi, S.Failed, n);
    } else {
      StoredCase(w, n, Received(pi, r.value), Landing(r.value.status), n);
    }
  }

  lemma {:induction false} SettleBeside(w: World, n: nat, r: Result<D.PaymentResult, Error>, m: nat)
    requires Ids(w) && n in w.deals.intents
    ensures Beside(w, Settle(w, n, r).0, n, m) && Settle(w, n, r).0.demo == w.demo
  {
    var pi := w.deals.intents[n];
    if r.Err? {
      StoredCase(w, n, pi, S.Failed, m);
    } else {
      StoredCase(w, n, Received(pi, r.value), Landing(r.value.status), m);
    }
  }
}
