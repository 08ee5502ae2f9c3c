/** What every serial run of agentic payments keeps about each intent, its approval and its audit trail. */
module PaymentInvariants {
  import opened AuditTrails
  import opened Results
  import opened Money
  import opened Approvals
  import opened PaymentFlow
  import S = PaymentStates
  import P = Policy

  /** Everything the stores hold about one payment intent. */
  datatype Case = Case(intent: Option<Intent>, aid: Option<nat>, approval: Option<Approval>, trail: Trail<S.State>)

  function ReplayOf(log: seq<Event<S.State>>, n: nat): Trail<S.State> {
    Replay(S.CanTransition, S.Draft, log, n)
  }

  function CaseOf(w: World, n: nat): Case {
    var aid := Lookup(w.deals.latest, Some(n));
    Case(Lookup(w.deals.intents, Some(n)), aid, Lookup(w.deals.approvals, aid), ReplayOf(w.record.audit, n))
  }

  predicate Early(s: S.State) {
    s == S.Draft || s == S.PolicyEvaluating || s == S.Denied
  }

  predicate ApprovalIs(c: Case, status: Status) {
    c.approval.Some? && c.approval.value.status == status
  }

  /** An approval binds its intent's merchant, amount, currency and alias, and no items. */
  predicate Binds(a: Approval, q: Request) {
    && a.merchant == q.merchant && a.alias == q.alias
    && a.amount == Amount(q.amount, q.currency)
    && a.itemsHash == CanonicalDigest(q.merchant, [], q.currency, q.alias)
  }

  /** A receipt is for exactly what was requested, and was paid on a consumed approval. */
  predicate Receipted(c: Case)
    requires c.intent.Some?
  {
    c.intent.value.receipt.Some? ==>
      && ApprovalIs(c, Consumed)
      && c.intent.value.receipt.value.amount == c.intent.value.request.amount
      && c.intent.value.receipt.value.currency == c.intent.value.request.currency
  }

  ghost predicate CaseOk(c: Case) {
    if c.intent == None then
      c.aid == None && c.trail == Silent
    else
      var s := c.intent.value.status;
      && c.trail == At(s)
      && (Early(s) ==> c.aid == None)
      && (c.aid.Some? ==> c.approval.Some? && Binds(c.approval.value, c.intent.value.request))
      && (s == S.Authorized ==> ApprovalIs(c, Approved))
      && (c.intent.value.receipt.Some? <==> s == S.Succeeded)
      && Receipted(c)
  }

  /** Ids are fresh, and an intent's latest approval is its only one. */
  ghost predicate Ids(w: World) {
    && (forall n | n in w.deals.intents :: n < w.deals.next)
    && (forall a | a in w.deals.approvals :: a < w.deals.next)
    && (forall a | a in w.deals.approvals ::
          w.deals.approvals[a].parent in w.deals.latest && w.deals.latest[w.deals.approvals[a].parent] == a)
    && (forall n | n in w.deals.latest ::
          n in w.deals.intents && w.deals.latest[n] in w.deals.approvals
          && w.deals.approvals[w.deals.latest[n]].parent == n)
  }

  ghost predicate Good(w: World, n: nat) {
    CaseOk(CaseOf(w, n))
  }

  /** When an intent's approval expires, if it has one. */
  function Until(w: World, n: nat): Option<int> {
    var a := CaseOf(w, n).approval;
    if a.Some? then Some(a.value.expiresAt) else None
  }

  /** From `w` to `t`, nothing about intent `m` changed, unless it is `n`. */
  ghost predicate Beside(w: World, t: World, n: nat, m: nat) {
    Ids(t) && t.env == w.env && (m != n ==> CaseOf(t, m) == CaseOf(w, m))
  }

  /** The same, and intent `n` kept its receipt, and its approval if consumed; the provider was not called. */
  ghost predicate Calm(w: World, t: World, n: nat, m: nat) {
    && Beside(w, t, n, m) && t.demo == w.demo
    && (n in w.deals.intents ==> n in t.deals.intents && t.deals.intents[n].receipt == w.deals.intents[n].receipt
                                 && t.deals.intents[n].request == w.deals.intents[n].request
                                 && t.deals.intents[n].user == w.deals.intents[n].user)
    && (Until(w, n).Some? ==> Until(t, n) == Until(w, n))
    && (n !in w.deals.intents && n in t.deals.intents ==> t.deals.intents[n].receipt == None)
    && (ApprovalIs(CaseOf(w, n), Consumed) ==> ApprovalIs(CaseOf(t, n), Consumed))
  }

  // ----- store writes

  lemma {:induction false} StoredCase(w: World, n: nat, pi: Intent, to: S.State, m: nat)
    ensures m == n ==> CaseOf(Stored(w, n, pi, to), m)
                       == CaseOf(w, m).(intent := Some(pi.(status := to)),
                                        trail := Extend(S.CanTransition, S.Draft, CaseOf(w, m).trail,
                                                        Event(n, Some(pi.status), Some(to))))
    ensures m != n ==> CaseOf(Stored(w, n, pi, to), m) == CaseOf(w, m)
  {
    ReplayAppended(S.CanTransition, S.Draft, w.record.audit, Event(n, Some(pi.status), Some(to)), m);
  }

  lemma {:induction false} NotedCase(w: World, n: nat, m: nat)
    ensures CaseOf(Log(w, Event(n, None, None)), m) == CaseOf(w, m)
  {
    ReplayAppended(S.CanTransition, S.Draft, w.record.audit, Event(n, None, None), m);
  }

  lemma {:induction false} RowCase(w: World, a: nat, row: Approval, m: nat)
    requires Ids(w) && a in w.deals.approvals
    ensures m == w.deals.approvals[a].parent ==>
              CaseOf(PutApproval(w, a, row), m) == CaseOf(w, m).(approval := Some(row))
    ensures m != w.deals.approvals[a].parent ==> CaseOf(PutApproval(w, a, row), m) == CaseOf(w, m)
  {
  }

  lemma {:induction false} NewApprovalCase(w: World, n: nat, pi: Intent, status: Status, m: nat)
    requires Ids(w) && n in w.deals.intents
    ensures m == n ==> CaseOf(NewApproval(w, n, pi, status), m)
                       == CaseOf(w, m).(aid := Some(w.deals.next), approval := Some(NewRow(w, n, pi, status)))
    ensures m != n ==> CaseOf(NewApproval(w, n, pi, status), m) == CaseOf(w, m)
  {
  }

  /** Storing an intent in a state it may legally move to keeps its case good, if the approval fits. */
  lemma {:induction false} StoredKeeps(w: World, n: nat, pi: Intent, to: S.State)
    requires Good(w, n) && n in w.deals.intents && S.CanTransition(w.deals.intents[n].status, to)
    requires pi == w.deals.intents[n].(policyVersion := pi.policyVersion)
    requires to != S.Succeeded
    requires Early(to) ==> n !in w.deals.latest
    requires to == S.Authorized ==> ApprovalIs(CaseOf(w, n), Approved)
    ensures Good(Stored(w, n, pi, to), n)
  {
    StoredCase(w, n, pi, to, n);
    assert w.deals.intents[n].status != S.Succeeded;
  }

  lemma {:induction false} StoredCalm(w: World, n: nat, pi: Intent, to: S.State, m: nat)
    requires Ids(w) && n in w.deals.intents
    requires pi == w.deals.intents[n].(policyVersion := pi.policyVersion)
    ensures Calm(w, Stored(w, n, pi, to), n, m)
  {
    StoredCase(w, n, pi, to, m);
    StoredCase(w, n, pi, to, n);
  }

  lemma {:induction false} NewApprovalCalm(w: World, n: nat, pi: Intent, status: Status, m: nat)
    requires Ids(w) && n in w.deals.intents && n !in w.deals.latest
    ensures Calm(w, NewApproval(w, n, pi, status), n, m)
  {
    NewApprovalCase(w, n, pi, status, m);
    NewApprovalCase(w, n, pi, status, n);
  }

  // ----- Create

  lemma {:induction false} PlacedKeeps(w: World, pi: Intent)
    requires Ids(w) && Good(w, w.deals.next) && pi.status == S.Draft && pi.receipt == None
    ensures Good(Placed(w, pi), w.deals.next) && w.deals.next !in Placed(w, pi).deals.latest
  {
    ReplayAppended(S.CanTransition, S.Draft, w.record.audit, Event(w.deals.next, None, Some(S.Draft)), w.deals.next);
  }

  lemma {:induction false} PlacedIds(w: World, pi: Intent)
    requires Ids(w)
    ensures Ids(Placed(w, pi))
  {
  }

  lemma {:induction false} PlacedCase(w: World, pi: Intent, m: nat)
    requires m != w.deals.next
    ensures CaseOf(Placed(w, pi), m) == CaseOf(w, m)
  {
    ReplayAppended(S.CanTransition, S.Draft, w.record.audit, Event(w.deals.next, None, Some(S.Draft)), m);
  }

  lemma {:induction false} PlacedCalm(w: World, pi: Intent, m: nat)
    requires Ids(w) && pi.receipt == None
    ensures Calm(w, Placed(w, pi), w.deals.next, m)
  {
    PlacedIds(w, pi);
    if m != w.deals.next {
      PlacedCase(w, pi, m);
    }
    assert w.deals.next !in w.deals.intents && w.deals.next !in w.deals.latest;
  }

  lemma {:induction false} ApprovedKeeps(w: World, n: nat, pi: Intent, status: Status, to: S.State)
    requires Ids(w) && Good(w, n) && n in w.deals.intents && w.deals.intents[n].status == S.PolicyEvaluating
    requires pi == w.deals.intents[n].(policyVersion := pi.policyVersion)
    requires (status == Pending && to == S.ApprovalRequired) || (status == Approved && to == S.Authorized)
    ensures Good(Stored(NewApproval(w, n, pi, status), n, pi, to), n)
  {
    NewApprovalCase(w, n, pi, status, n);
    StoredCase(NewApproval(w, n, pi, status), n, pi, to, n);
  }

  lemma {:induction false} DecidedKeeps(w: World, n: nat, pi: Intent, d: P.Decision)
    requires Ids(w) && Good(w, n) && n in w.deals.intents && w.deals.intents[n].status == S.PolicyEvaluating
    requires pi == w.deals.intents[n].(policyVersion := pi.policyVersion)
    ensures Good(Decided(w, n, pi, d), n)
  {
    match d
    case Deny => StoredKeeps(w, n, pi, S.Denied);
    case RequireApproval => ApprovedKeeps(w, n, pi, Pending, S.ApprovalRequired);
    case Allow => ApprovedKeeps(w, n, pi, Approved, S.Authorized);
  }

  lemma {:induction false} DecidedCalm(w: World, n: nat, pi: Intent, d: P.Decision, m: nat)
    requires Ids(w) && n in w.deals.intents && n !in w.deals.latest
    requires pi == w.deals.intents[n].(policyVersion := pi.policyVersion)
    ensures Calm(w, Decided(w, n, pi, d), n, m)
  {
    match d
    case Deny => StoredCalm(w, n, pi, S.Denied, m);
    case RequireApproval =>
      NewApprovalCalm(w, n, pi, Pending, m);
      StoredCalm(NewApproval(w, n, pi, Pending), n, pi, S.ApprovalRequired, m);
    case Allow =>
      NewApprovalCalm(w, n, pi, Approved, m);
      StoredCalm(NewApproval(w, n, pi, Approved), n, pi, S.Authorized, m);
  }

  lemma {:induction false} ConcludedKeeps(w: World, n: nat, d: Result<P.PolicyDecision, Error>)
    requires Ids(w) && Good(w, n) && n in w.deals.intents && w.deals.intents[n].status == S.PolicyEvaluating
    ensures Good(Concluded(w, n, d), n)
  {
    if d.Ok? {
      NotedCase(w, n, n);
      DecidedKeeps(Log(w, Event(n, None, None)), n, w.deals.intents[n].(policyVersion := d.value.version),
                   d.value.decision);
    }
  }

  lemma {:induction false} ConcludedCalm(w: World, n: nat, d: Result<P.PolicyDecision, Error>, m: nat)
    requires Ids(w) && n in w.deals.intents && n !in w.deals.latest
    ensures Calm(w, Concluded(w, n, d), n, m)
  {
    if d.Ok? {
      NotedCase(w, n, m);
      NotedCase(w, n, n);
      DecidedCalm(Log(w, Event(n, None, None)), n, w.deals.intents[n].(policyVersion := d.value.version),
                  d.value.decision, m);
    }
  }

  lemma {:induction false} EvaluatedKeeps(w: World, pi: Intent, d: Result<P.PolicyDecision, Error>)
    requires Ids(w) && Good(w, w.deals.next) && pi.status == S.Draft && pi.receipt == None
    ensures Good(Evaluated(w, pi, d), w.deals.next)
  {
    var n := w.deals.next;
    PlacedKeeps(w, pi);
    PlacedCalm(w, pi, n);
    StoredKeeps(Placed(w, pi), n, pi, S.PolicyEvaluating);
    StoredCalm(Placed(w, pi), n, pi, S.PolicyEvaluating, n);
    ConcludedKeeps(Stored(Placed(w, pi), n, pi, S.PolicyEvaluating), n, d);
  }

  lemma {:induction false} EvaluatedCalm(w: World, pi: Intent, d: Result<P.PolicyDecision, Error>, m: nat)
    requires Ids(w) && Good(w, w.deals.next) && pi.status == S.Draft && pi.receipt == None
    ensures Calm(w, Evaluated(w, pi, d), w.deals.next, m)
  {
    var n := w.deals.next;
    PlacedKeeps(w, pi);
    PlacedCalm(w, pi, m);
    StoredCalm(Placed(w, pi), n, pi, S.PolicyEvaluating, m);
    ConcludedCalm(Stored(Placed(w, pi), n, pi, S.PolicyEvaluating), n, d, m);
  }

  /** A request is refused, or becomes an evaluated intent. */
  ghost predicate Drafted(w: World, t: World, pi: Intent) {
    pi.status == S.Draft && pi.receipt == None && t == Evaluated(w, pi, Judge(w, pi))
  }

  lemma {:induction false} CreateShape(w: World, agent: string, q: Request)
    ensures var t := Create(w, agent, q).0;
            t == w || exists pi :: Drafted(w, t, pi)
  {
    var user := Permitted(w, agent, PaymentsCreate);
    if user.Ok? && user.value in w.env.tenants {
      var pi := Intent(w.env.tenants[user.value], user.value, q, S.Draft, "", None);
      assert Create(w, agent, q).0 == w || Drafted(w, Create(w, agent, q).0, pi);
    }
  }

  lemma {:induction false} CreateKeeps(w: World, agent: string, q: Request)
    requires Ids(w) && Good(w, w.deals.next)
    ensures Good(Create(w, agent, q).0, w.deals.next)
  {
    CreateShape(w, agent, q);
    var t := Create(w, agent, q).0;
    if t != w {
      var pi :| Drafted(w, t, pi);
      EvaluatedKeeps(w, pi, Judge(w, pi));
    }
  }

  lemma {:induction false} CreateCalm(w: World, agent: string, q: Request, m: nat)
    requires Ids(w) && Good(w, w.deals.next)
    ensures Calm(w, Create(w, agent, q).0, w.deals.next, m)
  {
    CreateShape(w, agent, q);
    var t := Create(w, agent, q).0;
    if t != w {
      var pi :| Drafted(w, t, pi);
      EvaluatedCalm(w, pi, Judge(w, pi), m);
    }
  }

  // ----- decisions and revocation

  lemma {:induction false} MoveParentCalm(w: World, n: nat, to: S.State, m: nat)
    requires Ids(w)
    ensures Calm(w, MoveParent(w, n, to).0, n, m)
  {
    if n in w.deals.intents {
      StoredCalm(w, n, w.deals.intents[n], to, m);
    }
  }

  /** The intent an approval belongs to. */
  function ParentOf(w: World, a: nat): nat {
    if a in w.deals.approvals then w.deals.approvals[a].parent else 0
  }

  lemma {:induction false} OpenedCalm(w: World, a: nat, status: Status, to: S.State, m: nat)
    requires Ids(w) && a in w.deals.approvals && w.deals.approvals[a].status != Consumed
    ensures Calm(w, MoveParent(WithStatus(w, a, status), w.deals.approvals[a].parent, to).0,
                 w.deals.approvals[a].parent, m)
  {
    var n := w.deals.approvals[a].parent;
    RowCase(w, a, w.deals.approvals[a].(status := status), m);
    MoveParentCalm(WithStatus(w, a, status), n, to, m);
  }

  lemma {:induction false} OpenedKeeps(w: World, a: nat, status: Status, to: S.State)
    requires Ids(w) && a in w.deals.approvals && Good(w, w.deals.approvals[a].parent)
    requires w.deals.approvals[a].status == Pending
             || (w.deals.approvals[a].status == ReapprovalRequired && status == Rejected)
    requires (status == Approved && to == S.Authorized) || (status == Rejected && to == S.Cancelled)
    ensures Good(MoveParent(WithStatus(w, a, status), w.deals.approvals[a].parent, to).0, w.deals.approvals[a].parent)
  {
    var n := w.deals.approvals[a].parent;
    var t := WithStatus(w, a, status);
    RowCase(w, a, w.deals.approvals[a].(status := status), n);
    assert w.deals.intents[n].status != S.Authorized;
    assert Good(t, n);
    if S.CanTransition(t.deals.intents[n].status, to) {
      StoredKeeps(t, n, t.deals.intents[n], to);
    }
  }

  lemma {:induction false} ApproveKeeps(w: World, user: string, a: nat)
    requires Ids(w) && Good(w, ParentOf(w, a))
    ensures Good(Approve(w, user, a).0, ParentOf(w, a))
  {
    if a in w.deals.approvals && w.deals.approvals[a].status == Pending {
      OpenedKeeps(w, a, Approved, S.Authorized);
    }
  }

  lemma {:induction false} RejectKeeps(w: World, user: string, a: nat)
    requires Ids(w) && Good(w, ParentOf(w, a))
    ensures Good(Reject(w, user, a).0, ParentOf(w, a))
  {
    if a in w.deals.approvals
       && (w.deals.approvals[a].status == Pending || w.deals.approvals[a].status == ReapprovalRequired) {
      OpenedKeeps(w, a, Rejected, S.Cancelled);
    }
  }

  lemma {:induction false} ApproveCalm(w: World, user: string, a: nat, m: nat)
    requires Ids(w)
    ensures Calm(w, Approve(w, user, a).0, ParentOf(w, a), m)
  {
    if a in w.deals.approvals && w.deals.approvals[a].status != Consumed {
      OpenedCalm(w, a, Approved, S.Authorized, m);
    }
  }

  lemma {:induction false} RejectCalm(w: World, user: string, a: nat, m: nat)
    requires Ids(w)
    ensures Calm(w, Reject(w, user, a).0, ParentOf(w, a), m)
  {
    if a in w.deals.approvals && w.deals.approvals[a].status != Consumed {
      OpenedCalm(w, a, Rejected, S.Cancelled, m);
    }
  }

  lemma {:induction false} RevokeKeeps(w: World, agent: string, n: nat)
    requires Good(w, n)
    ensures Good(Revoke(w, agent, n).0, n)
  {
    EndedKeeps(w, n, S.Revoked);
    EndedKeeps(w, n, S.Cancelled);
  }

  lemma {:induction false} EndedKeeps(w: World, n: nat, to: S.State)
    requires Good(w, n) && (to == S.Revoked || to == S.Cancelled)
    ensures Good(MoveParent(w, n, to).0, n)
  {
    if n in w.deals.intents && S.CanTransition(w.deals.intents[n].status, to) {
      StoredKeeps(w, n, w.deals.intents[n], to);
    }
  }

  lemma {:induction false} RevokeCalm(w: World, agent: string, n: nat, m: nat)
    requires Ids(w)
    ensures Calm(w, Revoke(w, agent, n).0, n, m)
  {
    MoveParentCalm(w, n, S.Revoked, m);
    MoveParentCalm(w, n, S.Cancelled, m);
  }
}
