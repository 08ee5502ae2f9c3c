/** The demo payment provider (providers/paymentdemo/demo.go): sources, delegated authorizations, scoped
    credentials and idempotent payments, with amount and single-use bounds. */
module PaymentDemo {
  import opened Results

  datatype Authorization = Authorization(source: nat, maxAmount: int, currency: string, expiresAt: int, revoked: bool)

  /** `usedBy` is the transaction a credential was consumed by; the source keeps the flag alone. */
  datatype Credential = Credential(authorization: nat, amount: int, currency: string, expiresAt: int,
                                   usedBy: Option<nat>) {
    predicate Consumed() {
      usedBy.Some?
    }
  }

  datatype PayStatus = Succeeded | Declined | Failed | AuthenticationRequired | ProviderUnavailable

  /** What a payment or refund came to. `credential` is the one a payment was made on, a history nothing reads. */
  datatype PaymentResult = PaymentResult(
    status: PayStatus,
    transaction: Option<nat>,
    amount: int,
    currency: string,
    refundOf: Option<nat>,
    credential: Option<nat>)

  datatype Vault = Vault(
    sourcesByKey: map<string, nat>,
    sources: set<nat>,
    authorizations: map<nat, Authorization>,
    credentials: map<nat, Credential>)

  /** Results by transaction, and again by idempotency key. */
  datatype Book = Book(results: map<nat, PaymentResult>, byKey: map<string, PaymentResult>)

  /** `next` numbers everything the provider creates. */
  datatype Demo = Demo(vault: Vault, book: Book, next: nat)

  const CREDENTIAL_LIFE: int := 300

  /** The outcome a request's metadata asks for; anything unrecognised succeeds. */
  datatype Scenario = Plain | Decline | InsufficientFunds | Outage | Authenticate

  function SourceKey(user: string, alias: string): string {
    user + ['|'] + alias
  }

  function PutAuthorization(d: Demo, id: nat, a: Authorization): Demo {
    d.(vault := d.vault.(authorizations := d.vault.authorizations[id := a]))
  }

  function PutCredential(d: Demo, id: nat, c: Credential): Demo {
    d.(vault := d.vault.(credentials := d.vault.credentials[id := c]))
  }

  function PutResult(d: Demo, t: nat, r: PaymentResult): Demo {
    d.(book := d.book.(results := d.book.results[t := r]))
  }

  function Issued(d: Demo): Demo {
    d.(next := d.next + 1)
  }

  /** Registering a user's alias again gives the same source. */
  function Registered(d: Demo, user: string, alias: string): (Demo, nat) {
    var key := SourceKey(user, alias);
    if key in d.vault.sourcesByKey then (d, d.vault.sourcesByKey[key])
    else
      (Issued(d.(vault := d.vault.(sourcesByKey := d.vault.sourcesByKey[key := d.next],
                                   sources := d.vault.sources + {d.next}))),
       d.next)
  }

  function Delegated(d: Demo, source: nat, maxAmount: int, currency: string, expiresAt: int)
    : (Demo, Result<nat, Error>)
  {
    if source !in d.vault.sources then (d, Err(NotFound))
    else (Issued(PutAuthorization(d, d.next, Authorization(source, maxAmount, currency, expiresAt, false))), Ok(d.next))
  }

  function Minted(d: Demo, authorization: nat, amount: int, currency: string, now: int): (Demo, Result<nat, Error>) {
    if authorization !in d.vault.authorizations then (d, Err(NotFound))
    else
      var a := d.vault.authorizations[authorization];
      if a.revoked || now > a.expiresAt || amount > a.maxAmount then (d, Err(Conflict))
      else
        (Issued(PutCredential(d, d.next, Credential(authorization, amount, currency, now + CREDENTIAL_LIFE, None))),
         Ok(d.next))
  }

  function Refused(status: PayStatus, credential: nat): PaymentResult {
    PaymentResult(status, None, 0, "", None, Some(credential))
  }

  /** How a payment on a live credential turns out, short of succeeding. */
  function Setback(scenario: Scenario): Option<PayStatus> {
    match scenario
    case Plain => None
    case Decline => Some(Declined)
    case InsufficientFunds => Some(Declined)
    case Outage => Some(ProviderUnavailable)
    case Authenticate => Some(AuthenticationRequired)
  }

  function Remember(d: Demo, key: string, r: PaymentResult): Demo {
    d.(book := d.book.(byKey := if key == "" then d.book.byKey else d.book.byKey[key := r]))
  }

  /** A successful payment: the credential is used up, under a new transaction. */
  function Charged(d: Demo, credential: nat, amount: int, currency: string): (Demo, PaymentResult)
    requires credential in d.vault.credentials
  {
    var r := PaymentResult(Succeeded, Some(d.next), amount, currency, None, Some(credential));
    var used := d.vault.credentials[credential].(usedBy := Some(d.next));
    (Issued(PutResult(PutCredential(d, credential, used), d.next, r)), r)
  }

  /** The first attempt under a key. */
  function Attempted(d: Demo, credential: nat, amount: int, currency: string, scenario: Scenario, now: int)
    : (Demo, PaymentResult)
    requires credential in d.vault.credentials
  {
    var c := d.vault.credentials[credential];
    if now > c.expiresAt || c.Consumed() then (d, Refused(Failed, credential))
    else if Setback(scenario).Some? then (d, Refused(Setback(scenario).value, credential))
    else Charged(d, credential, amount, currency)
  }

  /** ExecutePayment: a key that has been used gets its first answer again, whatever is asked. */
  function Paid(d: Demo, key: string, credential: nat, amount: int, currency: string, scenario: Scenario, now: int)
    : (Demo, Result<PaymentResult, Error>)
  {
    if key != "" && key in d.book.byKey then (d, Ok(d.book.byKey[key]))
    else if credential !in d.vault.credentials then (d, Err(NotFound))
    else
      var (t, r) := Attempted(d, credential, amount, currency, scenario, now);
      (Remember(t, key, r), Ok(r))
  }

  function StatusOf(d: Demo, transaction: nat): Result<PaymentResult, Error> {
    if transaction in d.book.results then Ok(d.book.results[transaction]) else Err(NotFound)
  }

  function Revoked(d: Demo, authorization: nat): (Demo, Option<Error>) {
    if authorization !in d.vault.authorizations then (d, Some(NotFound))
    else (PutAuthorization(d, authorization, d.vault.authorizations[authorization].(revoked := true)), None)
  }

  /** Refund: bounded by the transaction it refunds, not by what has been refunded of it already. */
  function Refunded(d: Demo, transaction: nat, amount: int, currency: string): (Demo, Result<PaymentResult, Error>) {
    if transaction !in d.book.results then (d, Err(NotFound))
    else
      var original := d.book.results[transaction];
      if original.status != Succeeded || amount > original.amount then (d, Err(Conflict))
      else
        var r := PaymentResult(Succeeded, Some(d.next), amount, currency, Some(transaction), None);
        (Issued(PutResult(d, d.next, r)), Ok(r))
  }

  // ----- what every operation keeps

  /** A recorded payment, as opposed to a refund. */
  predicate IsPayment(d: Demo, t: nat) {
    t in d.book.results && d.book.results[t].refundOf == None
  }

  /** A payment was made on a credential that it used up; so no credential pays twice. */
  ghost predicate PaymentBacked(d: Demo, t: nat)
    requires t in d.book.results
  {
    var r := d.book.results[t];
    && r.status == Succeeded && r.transaction == Some(t)
    && r.credential.Some? && r.credential.value in d.vault.credentials
    && d.vault.credentials[r.credential.value].usedBy == Some(t)
  }

  ghost predicate CredentialBounded(d: Demo, c: nat)
    requires c in d.vault.credentials
  {
    var credential := d.vault.credentials[c];
    && credential.authorization in d.vault.authorizations
    && credential.amount <= d.vault.authorizations[credential.authorization].maxAmount
  }

  ghost predicate Fresh(d: Demo) {
    && (forall a | a in d.vault.authorizations :: a < d.next)
    && (forall c | c in d.vault.credentials :: c < d.next)
    && (forall t | t in d.book.results :: t < d.next)
    && (forall s | s in d.vault.sources :: s < d.next)
  }

  /** Each user and alias has a source of its own. */
  ghost predicate SourcesApart(d: Demo) {
    forall k, l | k in d.vault.sourcesByKey && l in d.vault.sourcesByKey ::
      d.vault.sourcesByKey[k] == d.vault.sourcesByKey[l] ==> k == l
  }

  /** Every payment used up its own credential; every credential is within its authorization; and a key's
      remembered answer is a recorded payment, or no payment. */
  ghost predicate Sound(d: Demo) {
    && Fresh(d)
    && (forall k | k in d.vault.sourcesByKey :: d.vault.sourcesByKey[k] in d.vault.sources)
    && SourcesApart(d)
    && (forall c | c in d.vault.credentials :: CredentialBounded(d, c))
    && (forall t | t in d.book.results :: IsPayment(d, t) ==> PaymentBacked(d, t))
    && (forall k | k in d.book.byKey && d.book.byKey[k].transaction.Some? ::
          d.book.byKey[k].transaction.value in d.book.results
          && d.book.results[d.book.byKey[k].transaction.value] == d.book.byKey[k])
  }

  const NEW: Demo := Demo(Vault(map[], {}, map[], map[]), Book(map[], map[]), 0)

  lemma {:induction false} NewIsSound()
    ensures Sound(NEW)
  {
  }

  lemma {:induction false} RegisteringIsSound(d: Demo, user: string, alias: string)
    requires Sound(d)
    ensures Sound(Registered(d, user, alias).0)
  {
  }

  lemma {:induction false} DelegatingIsSound(d: Demo, source: nat, maxAmount: int, currency: string, expiresAt: int)
    requires Sound(d)
    ensures Sound(Delegated(d, source, maxAmount, currency, expiresAt).0)
  {
  }

  lemma {:induction false} RevokingIsSound(d: Demo, authorization: nat)
    requires Sound(d)
    ensures Sound(Revoked(d, authorization).0)
  {
  }

  lemma {:induction false} MintingIsSound(d: Demo, authorization: nat, amount: int, currency: string, now: int)
    requires Sound(d)
    ensures Sound(Minted(d, authorization, amount, currency, now).0)
  {
  }

  /** A charge uses up a credential nobody had used, so it pays on a credential of its own. */
  lemma {:induction false} ChargingIsSound(d: Demo, credential: nat, amount: int, currency: string)
    requires Sound(d) && credential in d.vault.credentials && !d.vault.credentials[credential].Consumed()
    ensures Sound(Charged(d, credential, amount, currency).0)
  {
  }

  lemma {:induction false} RememberingIsSound(d: Demo, key: string, r: PaymentResult)
    requires Sound(d)
    requires r.transaction.Some? ==> r.transaction.value in d.book.results && d.book.results[r.transaction.value] == r
    ensures Sound(Remember(d, key, r))
  {
  }

  lemma {:induction false} PayingIsSound(d: Demo, key: string, credential: nat, amount: int, currency: string,
                                         scenario: Scenario, now: int)
    requires Sound(d)
    ensures Sound(Paid(d, key, credential, amount, currency, scenario, now).0)
  {
    if credential in d.vault.credentials {
      var (t, r) := Attempted(d, credential, amount, currency, scenario, now);
      if !d.vault.credentials[credential].Consumed() {
        ChargingIsSound(d, credential, amount, currency);
      }
      RememberingIsSound(t, key, r);
    }
  }

  lemma {:induction false} RefundingIsSound(d: Demo, transaction: nat, amount: int, currency: string)
    requires Sound(d)
    ensures Sound(Refunded(d, transaction, amount, currency).0)
  {
  }

  /** No credential ever pays twice. */
  lemma {:induction false} CredentialsPayOnce(d: Demo, t: nat, u: nat)
    requires Sound(d) && IsPayment(d, t) && IsPayment(d, u)
             && d.book.results[t].credential == d.book.results[u].credential
    ensures t == u
  {
  }

  /** Asking again under a key changes nothing and gives the first answer, whatever is asked. */
  lemma {:induction false} KeysReplay(d: Demo, key: string, credential: nat, amount: int, currency: string,
                                      scenario: Scenario,
                                      now: int, again: nat, amount': int, currency': string, scenario': Scenario,
                                      now': int)
    requires key != "" && Paid(d, key, credential, amount, currency, scenario, now).1.Ok?
    ensures var (t, r) := Paid(d, key, credential, amount, currency, scenario, now);
            Paid(t, key, again, amount', currency', scenario', now') == (t, r)
  {
  }

  /** Whenever a payment under any key answers with a transaction, a status enquiry for it gives that same answer:
      right away, however often the key is used again, and after any operation that records nothing over it. */
  lemma {:induction false} StatusAgrees(d: Demo, key: string, credential: nat, amount: int, currency: string,
                                        scenario: Scenario, now: int, e: Demo)
    requires Sound(d)
    requires Paid(d, key, credential, amount, currency, scenario, now).1.Ok?
    requires Paid(d, key, credential, amount, currency, scenario, now).1.value.transaction.Some?
    ensures var (t, r) := Paid(d, key, credential, amount, currency, scenario, now);
            && StatusOf(t, r.value.transaction.value) == r
            && (Keeps(t, e) ==> StatusOf(e, r.value.transaction.value) == r)
  {
  }

  // ----- what operations other than a payment leave alone

  /** Everything recorded stays, with the same amounts; no payment is added, and no answer remembered. */
  ghost predicate Keeps(d: Demo, e: Demo) {
    && (forall t | t in d.book.results :: t in e.book.results && e.book.results[t] == d.book.results[t])
    && (forall t | t in e.book.results :: IsPayment(e, t) ==> t in d.book.results)
    && e.book.byKey == d.book.byKey
    && SameBounds(d, e)
  }

  /** Credentials and authorizations keep what they allow, and sources stay whose they are. */
  ghost predicate SameBounds(d: Demo, e: Demo) {
    && (forall c | c in d.vault.credentials ::
          c in e.vault.credentials
          && d.vault.credentials[c] == e.vault.credentials[c].(usedBy := d.vault.credentials[c].usedBy))
    && (forall a | a in d.vault.authorizations ::
          a in e.vault.authorizations
          && d.vault.authorizations[a] == e.vault.authorizations[a].(revoked := d.vault.authorizations[a].revoked))
    && (forall k | k in d.vault.sourcesByKey ::
          k in e.vault.sourcesByKey && e.vault.sourcesByKey[k] == d.vault.sourcesByKey[k])
  }

  /** A credential for an amount, on an authorization of a user's own source: the bounds and the expiry it was given. */
  ghost predicate DrawsOn(d: Demo, c: nat, user: string, alias: string, amount: int, maxAmount: int, currency: string,
                          until: int)
  {
    && c in d.vault.credentials && d.vault.credentials[c].amount == amount
    && d.vault.credentials[c].currency == currency
    && var a := d.vault.credentials[c].authorization;
       && a in d.vault.authorizations && d.vault.authorizations[a].maxAmount == maxAmount
       && d.vault.authorizations[a].currency == currency && d.vault.authorizations[a].expiresAt == until
       && SourceKey(user, alias) in d.vault.sourcesByKey
       && d.vault.authorizations[a].source == d.vault.sourcesByKey[SourceKey(user, alias)]
  }

  lemma {:induction false} DrawsOnStill(d: Demo, e: Demo, c: nat, user: string, alias: string, amount: int,
                                        maxAmount: int, currency: string, until: int)
    requires DrawsOn(d, c, user, alias, amount, maxAmount, currency, until) && SameBounds(d, e)
    ensures DrawsOn(e, c, user, alias, amount, maxAmount, currency, until)
  {
  }

  /** Two credentials draw on one source exactly if they were given out for the same user and alias key. */
  lemma {:induction false} SourcesOfTwo(d: Demo, c: nat, user: string, alias: string, amount: int, maxAmount: int,
                                        currency: string, until: int, c': nat, user': string, alias': string,
                                        amount': int, maxAmount': int, currency': string, until': int)
    requires Sound(d) && DrawsOn(d, c, user, alias, amount, maxAmount, currency, until)
    requires DrawsOn(d, c', user', alias', amount', maxAmount', currency', until')
    ensures d.vault.authorizations[d.vault.credentials[c].authorization].source
            == d.vault.authorizations[d.vault.credentials[c'].authorization].source
            <==> SourceKey(user, alias) == SourceKey(user', alias')
  {
  }

  /** Keys tell users and aliases apart as long as no user's name has a bar in it. */
  lemma {:induction false} KeysTellApart(user: string, alias: string, user': string, alias': string)
    requires '|' !in user && '|' !in user'
    ensures SourceKey(user, alias) == SourceKey(user', alias') <==> user == user' && alias == alias'
  {
    var k, k' := SourceKey(user, alias), SourceKey(user', alias');
    assert k[|user|] == '|' && k'[|user'|] == '|';
    assert |user| < |user'| ==> k'[|user|] == user'[|user|];
    assert |user'| < |user| ==> k[|user'|] == user[|user'|];
    assert user == k[..|user|] && user' == k'[..|user'|];
    assert alias == k[|user| + 1..] && alias' == k'[|user'| + 1..];
  }

  /** With bars in their names two users can share a key, and so a source. */
  lemma {:induction false} BarsConfuse()
    ensures SourceKey("a|b", "c") == SourceKey("a", "b|c")
  {
  }

  lemma {:induction false} RevokedKeeps(d: Demo, authorization: nat)
    ensures Keeps(d, Revoked(d, authorization).0)
  {
  }

  lemma {:induction false} RefundedKeeps(d: Demo, transaction: nat, amount: int, currency: string)
    requires Fresh(d)
    ensures Keeps(d, Refunded(d, transaction, amount, currency).0)
  {
  }

  lemma {:induction false} RegisteredKeeps(d: Demo, user: string, alias: string)
    requires Sound(d)
    ensures var (e, source) := Registered(d, user, alias); Keeps(d, e) && source in e.vault.sources
  {
  }

  lemma {:induction false} DelegatedKeeps(d: Demo, source: nat, maxAmount: int, currency: string, expiresAt: int)
    requires Fresh(d)
    ensures Keeps(d, Delegated(d, source, maxAmount, currency, expiresAt).0)
  {
  }

  lemma {:induction false} MintedKeeps(d: Demo, authorization: nat, amount: int, currency: string, now: int)
    requires Fresh(d)
    ensures Keeps(d, Minted(d, authorization, amount, currency, now).0)
  {
  }

  lemma {:induction false} KeepsTransitive(d: Demo, e: Demo, f: Demo)
    requires Keeps(d, e) && Keeps(e, f)
    ensures Keeps(d, f)
  {
  }

  /** A live, unused credential under a key not used before: one new payment for what is asked, or a setback. */
  lemma {:induction false} PaidFresh(d: Demo, key: string, c: nat, amount: int, currency: string, scenario: Scenario,
                                     now: int)
    requires Fresh(d) && c in d.vault.credentials && !d.vault.credentials[c].Consumed()
             && now <= d.vault.credentials[c].expiresAt
    requires key == "" || key !in d.book.byKey
    ensures var (e, r) := Paid(d, key, c, amount, currency, scenario, now);
            && r.Ok? && SameBounds(d, e)
            && e.book.byKey == (if key == "" then d.book.byKey else d.book.byKey[key := r.value])
            && if scenario == Plain
               then r.value == PaymentResult(Succeeded, Some(d.next), amount, currency, None, Some(c))
                    && e.book.results == d.book.results[d.next := r.value]
               else r.value.status != Succeeded && e.book.results == d.book.results
  {
  }

  lemma {:induction false} ChargedAdds(d: Demo, c: nat, amount: int, currency: string)
    requires Fresh(d) && c in d.vault.credentials
    ensures var e := Charged(d, c, amount, currency).0;
            && SameBounds(d, e) && e.book.byKey == d.book.byKey
            && (forall t | t in d.book.results :: t in e.book.results && e.book.results[t] == d.book.results[t])
  {
  }

  lemma {:induction false} RememberAdds(d: Demo, key: string, r: PaymentResult)
    ensures var e := Remember(d, key, r);
            e.vault == d.vault && e.book.results == d.book.results
            && forall k | k in e.book.byKey :: k in d.book.byKey || k == key
  {
  }

  /** Whatever a payment comes to, everything recorded before stays. */
  lemma {:induction false} PayingAdds(d: Demo, key: string, c: nat, amount: int, currency: string, scenario: Scenario,
                                      now: int)
    requires Fresh(d)
    ensures var e := Paid(d, key, c, amount, currency, scenario, now).0;
            && SameBounds(d, e)
            && (forall t | t in d.book.results :: t in e.book.results && e.book.results[t] == d.book.results[t])
            && (forall k | k in e.book.byKey :: k in d.book.byKey || k == key)
  {
    if c in d.vault.credentials {
      ChargedAdds(d, c, amount, currency);
      var (t, r) := Attempted(d, c, amount, currency, scenario, now);
      RememberAdds(t, key, r);
    }
  }

  // ----- each operation, exactly

  /** A user's alias is registered once: it gets the next id as its source, and that same source for ever after; no
      other alias is affected. */
  lemma {:induction false} RegisterExactly(d: Demo, user: string, alias: string)
    ensures var (e, source) := Registered(d, user, alias);
            && SourceKey(user, alias) in e.vault.sourcesByKey && e.vault.sourcesByKey[SourceKey(user, alias)] == source
            && Registered(e, user, alias) == (e, source)
            && (if SourceKey(user, alias) in d.vault.sourcesByKey then e == d
                else source == d.next && e.next == d.next + 1 && e.vault.sources == d.vault.sources + {source})
            && (forall k | k != SourceKey(user, alias) ::
                  (k in e.vault.sourcesByKey <==> k in d.vault.sourcesByKey)
                  && (k in d.vault.sourcesByKey ==> e.vault.sourcesByKey[k] == d.vault.sourcesByKey[k]))
            && e.vault.authorizations == d.vault.authorizations && e.vault.credentials == d.vault.credentials
            && e.book == d.book
  {
  }

  /** A known source is delegated, with the bound, the currency and the expiry asked for, and not revoked. */
  lemma {:induction false} DelegateExactly(d: Demo, source: nat, maxAmount: int, currency: string, expiresAt: int)
    ensures var (e, r) := Delegated(d, source, maxAmount, currency, expiresAt);
            if source in d.vault.sources then
              && r == Ok(d.next) && e.next == d.next + 1 && e.book == d.book
              && e.vault.credentials == d.vault.credentials
              && e.vault.authorizations
                 == d.vault.authorizations[d.next := Authorization(source, maxAmount, currency, expiresAt, false)]
            else e == d && r == Err(NotFound)
  {
  }

  /** A credential is minted exactly on a known authorization that is not revoked, not past its expiry and good for the
      amount; it can be used once, for five minutes. */
  lemma {:induction false} MintExactly(d: Demo, authorization: nat, amount: int, currency: string, now: int)
    ensures var (e, r) := Minted(d, authorization, amount, currency, now);
            var auths := d.vault.authorizations;
            if authorization in auths && !auths[authorization].revoked && now <= auths[authorization].expiresAt
               && amount <= auths[authorization].maxAmount then
              && r == Ok(d.next) && e.next == d.next + 1 && e.book == d.book && e.vault.authorizations == auths
              && e.vault.credentials
                 == d.vault.credentials[d.next := Credential(authorization, amount, currency, now + 300, None)]
            else e == d && r == Err(if authorization in auths then Conflict else NotFound)
  {
  }

  /** A revoked authorization mints nothing more, whatever is asked. */
  lemma {:induction false} RevokedMintsNothing(d: Demo, authorization: nat, amount: int, currency: string, now: int)
    ensures var (e, error) := Revoked(d, authorization);
            && (error == None <==> authorization in d.vault.authorizations)
            && Minted(e, authorization, amount, currency, now).1.Err?
            && e.vault.credentials == d.vault.credentials && e.book == d.book && e.next == d.next
            && (forall a | a in d.vault.authorizations && a != authorization ::
                  a in e.vault.authorizations && e.vault.authorizations[a] == d.vault.authorizations[a])
  {
  }

  /** A refund is recorded exactly for a recorded transaction that succeeded, up to its amount, under a new id that says
      what it refunds. */
  lemma {:induction false} RefundExactly(d: Demo, transaction: nat, amount: int, currency: string)
    ensures var (e, r) := Refunded(d, transaction, amount, currency);
            if transaction in d.book.results && d.book.results[transaction].status == Succeeded
               && amount <= d.book.results[transaction].amount then
              var refund := PaymentResult(Succeeded, Some(d.next), amount, currency, Some(transaction), None);
              && r == Ok(refund) && e.book.results == d.book.results[d.next := refund] && e.next == d.next + 1
              && e.vault == d.vault && e.book.byKey == d.book.byKey
            else e == d && r == Err(if transaction in d.book.results then Conflict else NotFound)
  {
  }

  /** When a payment succeeds: its key was not used, its credential is known, alive and unused, and nothing in the
      request asks for a setback. Then it is recorded for what was asked, and the credential is used up. */
  lemma {:induction false} PayExactly(d: Demo, key: string, c: nat, amount: int, currency: string, scenario: Scenario,
                                      now: int)
    requires key == "" || key !in d.book.byKey
    ensures var (e, r) := Paid(d, key, c, amount, currency, scenario, now);
            && (r.Err? <==> c !in d.vault.credentials)
            && (r.Ok? ==>
                  var credential := d.vault.credentials[c];
                  var paid := scenario == Plain && now <= credential.expiresAt && credential.usedBy == None;
                  && (r.value.status == Succeeded <==> paid)
                  && e.book.results == (if paid then d.book.results[d.next := r.value] else d.book.results)
                  && e.vault.credentials
                     == (if paid then d.vault.credentials[c := credential.(usedBy := Some(d.next))]
                         else d.vault.credentials)
                  && (paid ==> r.value == PaymentResult(Succeeded, Some(d.next), amount, currency, None, Some(c)))
                  && (!paid ==> r.value.transaction == None
                                && (now > credential.expiresAt || credential.usedBy.Some? ==> r.value.status == Failed))
                  && e.book.byKey == if key == "" then d.book.byKey else d.book.byKey[key := r.value])
  {
  }

  // ----- the provider

  class Provider {
    var sourcesByKey: map<string, nat>
    var sources: set<nat>
    var authorizations: map<nat, Authorization>
    var credentials: map<nat, Credential>
    var results: map<nat, PaymentResult>
    var byIdempotencyKey: map<string, PaymentResult>
    var next: nat

    ghost function View(): Demo
      reads this
    {
      Demo(Vault(sourcesByKey, sources, authorizations, credentials), Book(results, byIdempotencyKey), next)
    }

    constructor ()
      ensures View() == NEW && Sound(View())
    {
      sourcesByKey, sources, authorizations, credentials := map[], {}, map[], map[];
      results, byIdempotencyKey, next := map[], map[], 0;
    }

    method RegisterPaymentSource(user: string, alias: string) returns (source: nat)
      modifies this
      ensures (View(), source) == Registered(old(View()), user, alias)
    {
      var key := SourceKey(user, alias);
      if key in sourcesByKey {
        return sourcesByKey[key];
      }
      source := next;
      next := next + 1;
      sourcesByKey := sourcesByKey[key := source];
      sources := sources + {source};
    }

    method CreateDelegatedAuthorization(source: nat, maxAmount: int, currency: string, expiresAt: int)
      returns (r: Result<nat, Error>)
      modifies this
      ensures (View(), r) == Delegated(old(View()), source, maxAmount, currency, expiresAt)
    {
      if source !in sources {
        return Err(NotFound);
      }
      var id := next;
      next := next + 1;
      authorizations := authorizations[id := Authorization(source, maxAmount, currency, expiresAt, false)];
      return Ok(id);
    }

    method CreateScopedCredential(authorization: nat, amount: int, currency: string, now: int)
      returns (r: Result<nat, Error>)
      modifies this
      ensures (View(), r) == Minted(old(View()), authorization, amount, currency, now)
    {
      if authorization !in authorizations {
        return Err(NotFound);
      }
      var a := authorizations[authorization];
      if a.revoked {
        return Err(Conflict);
      }
      if now > a.expiresAt {
        return Err(Conflict);
      }
      if amount > a.maxAmount {
        return Err(Conflict);
      }
      var id := next;
      next := next + 1;
      credentials := credentials[id := Credential(authorization, amount, currency, now + CREDENTIAL_LIFE, None)];
      return Ok(id);
    }

    method ExecutePayment(key: string, credential: nat, amount: int, currency: string, scenario: Scenario, now: int)
      returns (r: Result<PaymentResult, Error>)
      modifies this
      ensures (View(), r) == Paid(old(View()), key, credential, amount, currency, scenario, now)
    {
      if key != "" && key in byIdempotencyKey {
        return Ok(byIdempotencyKey[key]);
      }
      if credential !in credentials {
        return Err(NotFound);
      }
      var c := credentials[credential];
      var result: PaymentResult;
      if now > c.expiresAt {
        result := Refused(Failed, credential);
      } else if c.Consumed() {
        result := Refused(Failed, credential);
      } else if Setback(scenario).Some? {
        result := Refused(Setback(scenario).value, credential);
      } else {
        credentials := credentials[credential := c.(usedBy := Some(next))];
        result := PaymentResult(Succeeded, Some(next), amount, currency, None, Some(credential));
        results := results[next := result];
        next := next + 1;
      }
      if key != "" {
        byIdempotencyKey := byIdempotencyKey[key := result];
      }
      return Ok(result);
    }

    method GetPaymentStatus(transaction: nat) returns (r: Result<PaymentResult, Error>)
      ensures r == StatusOf(View(), transaction)
    {
      if transaction !in results {
        return Err(NotFound);
      }
      return Ok(results[transaction]);
    }

    method RevokeAuthorization(authorization: nat) returns (e: Option<Error>)
      modifies this
      ensures (View(), e) == Revoked(old(View()), authorization)
    {
      if authorization !in authorizations {
        return Some(NotFound);
      }
      authorizations := authorizations[authorization := authorizations[authorization].(revoked := true)];
      return None;
    }

    method Refund(transaction: nat, amount: int, currency: string) returns (r: Result<PaymentResult, Error>)
      modifies this
      ensures (View(), r) == Refunded(old(View()), transaction, amount, currency)
    {
      if transaction !in results {
        return Err(NotFound);
      }
      var original := results[transaction];
      if original.status != Succeeded {
        return Err(Conflict);
      }
      if amount > original.amount {
        return Err(Conflict);
      }
      var result := PaymentResult(Succeeded, Some(next), amount, currency, Some(transaction), None);
      results := results[next := result];
      next := next + 1;
      return Ok(result);
    }
  }
}
