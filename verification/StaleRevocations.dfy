/** What a revocation does not stop: it moves the payment intent and leaves its approval APPROVED, so an executor that
    read the intent before goes on to claim the approval and to pay. */
module StaleRevocations {
  import opened Results
  import opened Approvals
  import opened ExecutionProtocol
  import opened ExecutionTerms
  import opened Schedules
  import P = PaymentStates

  const GRANTED: Row := Row(Payment(0), 100, Approved)
  const ALLOWING: Caller := StorePayment(0, P.PolicyEvaluating, [P.Authorized])
  const COPIED: Caller := StartPreparing(0, P.Authorized, 0, GRANTED)

  /** The payment service, about to create the approval as granted; an executor, and an agent that will revoke. */
  const START: Sys :=
    Sys(map[], map[], map[], map[0 := P.PolicyEvaluating], [Create(0, GRANTED), LoadPayment(0), LoadRevoked(0)], [], [],
        [])

  /** The approval, granted and unclaimed; the intent's status; and the callers. */
  ghost predicate Looks(s: Sys, status: P.State, creator: Caller, executor: Caller, revoker: Caller) {
    && s.approvals == map[0 := GRANTED] && s.latest == map[Payment(0) := 0] && s.payments == map[0 := status]
    && s.callers == [creator, executor, revoker] && s.charges == []
  }

  const NOW: Env := Sees(0, Allowed)

  lemma {:induction false} CallersAre(a: Caller, b: Caller, c: Caller, x: Caller)
    ensures [a, b, c][0 := x] == [x, b, c] && [a, b, c][1 := x] == [a, x, c] && [a, b, c][2 := x] == [a, b, x]
  {
  }

  lemma {:induction false} Created(r: iset<Sys>) returns (t: Sys)
    requires Closed(r) && START in r
    ensures t in r && Looks(t, P.PolicyEvaluating, ALLOWING, LoadPayment(0), LoadRevoked(0))
  {
    t := Next(0, START, Move(0, NOW));
    CallersAre(Create(0, GRANTED), LoadPayment(0), LoadRevoked(0), ALLOWING);
    assert t == Apply(START, 0, Insert(ALLOWING, 0, GRANTED));
  }

  lemma {:induction false} Stored(r: iset<Sys>, s: Sys, from: P.State, to: P.State, i: nat) returns (t: Sys)
    requires Closed(r) && s in r && i < |s.callers| && s.callers[i] == StorePayment(0, from, [to])
    requires P.CanTransition(from, to) && 0 in s.payments && s.payments == map[0 := s.payments[0]]
    ensures t in r && t == s.(callers := s.callers[i := StorePayment(0, to, [])], payments := map[0 := to])
  {
    t := Next(0, s, Move(i, NOW));
    assert [to][1..] == [];
    assert PaymentEffect(s, s.callers[i], NOW) == PutPayment(StorePayment(0, to, []), 0, to);
    assert s.payments[0 := to] == map[0 := to];
  }

  /** The executor reads the intent, AUTHORIZED, and its approval. */
  lemma {:induction false} Copied(r: iset<Sys>, s: Sys, creator: Caller) returns (t: Sys)
    requires Closed(r) && s in r && Looks(s, P.Authorized, creator, LoadPayment(0), LoadRevoked(0))
    ensures t in r && Looks(t, P.Authorized, creator, COPIED, LoadRevoked(0))
  {
    var reading := LoadPaymentApproval(0, P.Authorized);
    var u := Next(0, s, Move(1, NOW));
    assert PaymentEffect(s, s.callers[1], NOW) == Go(reading);
    CallersAre(creator, LoadPayment(0), LoadRevoked(0), reading);
    assert Looks(u, P.Authorized, creator, reading, LoadRevoked(0));
    t := Next(0, u, Move(1, NOW));
    assert PaymentEffect(u, u.callers[1], NOW) == Go(COPIED);
    CallersAre(creator, reading, LoadRevoked(0), COPIED);
  }

  lemma {:induction false} Revoked(r: iset<Sys>, s: Sys, creator: Caller) returns (t: Sys)
    requires Closed(r) && s in r && Looks(s, P.Authorized, creator, COPIED, LoadRevoked(0))
    ensures t in r && Looks(t, P.Revoked, creator, COPIED, StorePayment(0, P.Revoked, []))
  {
    var revoking := StorePayment(0, P.Authorized, [P.Revoked]);
    var u := Next(0, s, Move(2, NOW));
    assert PaymentEffect(s, s.callers[2], NOW) == Go(revoking);
    CallersAre(creator, COPIED, LoadRevoked(0), revoking);
    assert Looks(u, P.Authorized, creator, COPIED, revoking);
    t := Stored(r, u, P.Authorized, P.Revoked, 2);
    CallersAre(creator, COPIED, revoking, StorePayment(0, P.Revoked, []));
  }

  lemma {:induction false} RevokedFirst(r: iset<Sys>) returns (t: Sys)
    requires Closed(r) && START in r
    ensures t in r && Looks(t, P.Revoked, StorePayment(0, P.Authorized, []), COPIED, StorePayment(0, P.Revoked, []))
  {
    var created := Created(r);
    var authorized := Stored(r, created, P.PolicyEvaluating, P.Authorized, 0);
    CallersAre(ALLOWING, LoadPayment(0), LoadRevoked(0), StorePayment(0, P.Authorized, []));
    var copied := Copied(r, authorized, StorePayment(0, P.Authorized, []));
    t := Revoked(r, copied, StorePayment(0, P.Authorized, []));
  }

  /** Every step is one of Create, Execute or Revoke. When the intent is REVOKED nothing has been paid for it, and its
      approval is still APPROVED; the executor's own steps then lead to a payment. */
  lemma {:induction false} PaidAfterRevocation() returns (start: Sys, before: seq<Event>, after: seq<Event>)
    ensures Initial(start) && Moves(before) && Solo(after, 1)
    ensures var u := Run(0, start, before);
            var t := Run(0, u, after);
            && u.payments == map[0 := P.Revoked] && u.approvals == map[0 := GRANTED] && u.charges == []
            && !Settled(u, Payment(0)) && |t.charges| == 1
  {
    start := START;
    FromIsClosed(START);
    var u := RevokedFirst(From(START));
    before := ScheduleTo(START, u);
    CopyIsLive(u);
    after := GoesOnToCharge(0, u, 1);
  }

  lemma {:induction false} CopyIsLive(u: Sys)
    requires Looks(u, P.Revoked, StorePayment(0, P.Authorized, []), COPIED, StorePayment(0, P.Revoked, []))
    ensures MayCharge(u, u.callers[1]) && !Settled(u, Payment(0))
  {
    assert HoldsLiveCopy(u.callers[1], Payment(0));
  }
}
