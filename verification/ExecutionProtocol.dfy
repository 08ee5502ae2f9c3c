/** The execution protocol with any number of concurrent callers.

    Every caller works on its own copies of the rows it has read, and every store write is an
    unconditional overwrite of the whole row, except MarkConsumed, which moves an approval from
    APPROVED to CONSUMED and reports whether it did (internal/app/interfaces.go:74-79). A caller may
    stop after any step, which also stands for every store or network failure. Locks and idempotency
    keys only prevent steps, so they are covered by the schedules in which those steps are not taken. */
module ExecutionProtocol {
  import opened Results
  import opened Approvals
  import I = PurchaseStates
  import P = PaymentStates

  datatype Parent = Purchase(id: nat) | Payment(id: nat)

  datatype Row = Row(parent: Parent, amount: int, status: Status)

  /** A write that set an approval to APPROVED, with the amount it stored. */
  datatype Grant = Grant(approval: nat, amount: int)

  /** A checkout or provider call, made on a claim, with the amount verified against the caller's copy. */
  datatype Charge = Charge(approval: nat, verified: int)

  datatype Verdict = ApproveIt | RejectIt | ReapproveIt

  /** Where a caller is, and the copies it holds. Each constructor names what it is about to do. */
  datatype Caller =
    | Done
    // createApproval, both services, and the move of the intent that follows it
    | Create(aid: nat, row: Row)
    // IntentService.CancelIntent, PaymentIntentService.Revoke
    | LoadCancelled(intent: nat)
    | LoadRevoked(payment: nat)
    // OrderService.Execute
    | LoadIntent(intent: nat)
    | LoadApproval(intent: nat, mine: I.State)
    | RefreshAndCheck(intent: nat, mine: I.State, aid: nat, row: Row)
    | FlagApproval(intent: nat, mine: I.State, aid: nat, row: Row)
    | Claim(intent: nat, mine: I.State, aid: nat, row: Row, verified: int)
    | EnterExecuting(intent: nat, mine: I.State, aid: nat, row: Row, verified: int)
    | CallConnector(intent: nat, mine: I.State, aid: nat, row: Row, verified: int)
    | StoreIntent(intent: nat, mine: I.State, next: seq<I.State>)
    // PaymentIntentService.Execute
    | LoadPayment(payment: nat)
    | LoadPaymentApproval(payment: nat, its: P.State)
    | StartPreparing(payment: nat, its: P.State, aid: nat, row: Row)
    | Prepare(payment: nat, its: P.State, aid: nat, row: Row)
    | FinishPreparing(payment: nat, its: P.State, aid: nat, row: Row)
    | ClaimPayment(payment: nat, its: P.State, aid: nat, row: Row)
    | EnterProcessing(payment: nat, its: P.State, aid: nat, row: Row)
    | CallProvider(payment: nat, its: P.State, aid: nat, row: Row)
    | StorePayment(payment: nat, its: P.State, after: seq<P.State>)
    // ApprovalService.Approve, Reject, Reapprove
    | LoadDecided(aid: nat, verdict: Verdict)
    | WriteDecision(aid: nat, row: Row, verdict: Verdict)
    | LoadParent(parent: Parent, verdict: Verdict)

  datatype Sys = Sys(
    approvals: map<nat, Row>,
    latest: map<Parent, nat>,
    intents: map<nat, I.State>,
    payments: map<nat, P.State>,
    callers: seq<Caller>,
    grants: seq<Grant>,
    wins: seq<nat>,
    charges: seq<Charge>)

  datatype Check = Drifted | NeedsApproval | Denied | Allowed

  /** What the environment contributes to a step: failures, expiry, the refreshed amount, the policy and
      connector outcomes. */
  datatype Env = Env(
    fails: bool,
    expired: bool,
    amount: int,
    check: Check,
    outcome: I.State,
    paymentOutcome: P.State)

  /** A scheduled step of one caller, or any other service overwriting an intent. */
  datatype Event =
    | Move(who: nat, env: Env)
    | OtherIntentWrite(intent: nat, state: I.State)
    | OtherPaymentWrite(payment: nat, paymentState: P.State)

  /** What one step does to the shared rows, and where it leaves the caller. */
  datatype Effect =
    | Go(to: Caller)
    | PutRow(to: Caller, aid: nat, row: Row)
    | PutGrant(to: Caller, aid: nat, row: Row)
    | Insert(to: Caller, aid: nat, row: Row)
    | Won(to: Caller, aid: nat)
    | Charged(to: Caller, charge: Charge)
    | PutIntent(to: Caller, intent: nat, state: I.State)
    | PutPayment(to: Caller, payment: nat, paymentState: P.State)

  predicate Within(a: int, b: int, tolerance: int) {
    -tolerance <= a - b <= tolerance
  }

  /** transitionIntent on the caller's own copy, then an unconditional Update. */
  function IntentStep(n: nat, mine: I.State, to: I.State, after: Caller): Effect {
    if I.CanTransition(mine, to) then PutIntent(after, n, to) else Go(Done)
  }

  function PaymentStep(n: nat, its: P.State, to: P.State, after: Caller): Effect {
    if P.CanTransition(its, to) then PutPayment(after, n, to) else Go(Done)
  }

  /** MarkConsumed: compare-and-set. */
  function ClaimStep(s: Sys, aid: nat, after: Caller): Effect {
    if aid in s.approvals && s.approvals[aid].status == Approved then Won(after, aid) else Go(Done)
  }

  /** Where a new approval takes its intent, from the evaluation its caller has just started. */
  function AfterCreation(row: Row): Caller {
    match row.parent
    case Purchase(n) => StoreIntent(n, I.PolicyCheck,
                                    [if row.status == Approved then I.Approved else I.ApprovalRequired])
    case Payment(n) =>
      StorePayment(n, P.PolicyEvaluating, [if row.status == Approved then P.Authorized else P.ApprovalRequired])
  }

  /** What Revoke asks for. */
  function RevokeTarget(its: P.State): P.State {
    if its == P.ApprovalRequired || its == P.Authorized || its == P.ReadyToExecute then P.Revoked else P.Cancelled
  }

  /** createApproval, CancelIntent, and OrderService.Execute from the load of the intent to the last stored state.
      `tolerance` is the service's configured price tolerance. */
  function PurchaseEffect(tolerance: int, s: Sys, c: Caller, e: Env): Effect {
    match c
    case Create(aid, row) =>
      if aid in s.approvals || (row.status != Approved && row.status != Pending) then Go(Done)
      else Insert(AfterCreation(row), aid, row)
    case LoadCancelled(n) => Go(if n in s.intents then StoreIntent(n, s.intents[n], [I.Cancelled]) else Done)
    case LoadIntent(n) =>
      Go(if n in s.intents && s.intents[n] == I.Approved then LoadApproval(n, s.intents[n]) else Done)
    case LoadApproval(n, mine) =>
      if Purchase(n) !in s.latest || s.latest[Purchase(n)] !in s.approvals then Go(Done)
      else
        var aid := s.latest[Purchase(n)];
        var row := s.approvals[aid];
        Go(if row.status == Approved && !e.expired then RefreshAndCheck(n, mine, aid, row) else Done)
    case RefreshAndCheck(n, mine, aid, row) =>
      Go(if e.check == Drifted || e.check == NeedsApproval || !Within(e.amount, row.amount, tolerance) then
           FlagApproval(n, mine, aid, row)
         else if e.check == Denied then StoreIntent(n, mine, [I.Executing, I.Failed])
         else Claim(n, mine, aid, row, e.amount))
    case FlagApproval(n, mine, aid, row) =>
      PutRow(StoreIntent(n, mine, [I.ReapprovalRequired]), aid, row.(status := ReapprovalRequired))
    case Claim(n, mine, aid, row, verified) =>
      ClaimStep(s, aid, EnterExecuting(n, mine, aid, row, verified))
    case EnterExecuting(n, mine, aid, row, verified) =>
      IntentStep(n, mine, I.Executing, CallConnector(n, I.Executing, aid, row, verified))
    case CallConnector(n, mine, aid, row, verified) =>
      Charged(StoreIntent(n, mine, [e.outcome]), Charge(aid, verified))
    case StoreIntent(n, mine, next) =>
      if next == [] then Go(Done) else IntentStep(n, mine, next[0], StoreIntent(n, next[0], next[1..]))
    case _ => Go(Done)
  }

  /** PaymentIntentService.Revoke and Execute. */
  function PaymentEffect(s: Sys, c: Caller, e: Env): Effect {
    match c
    case LoadRevoked(n) =>
      Go(if n in s.payments then StorePayment(n, s.payments[n], [RevokeTarget(s.payments[n])]) else Done)
    case LoadPayment(n) =>
      Go(if n in s.payments && s.payments[n] == P.Authorized then LoadPaymentApproval(n, s.payments[n]) else Done)
    case LoadPaymentApproval(n, its) =>
      if Payment(n) !in s.latest || s.latest[Payment(n)] !in s.approvals then Go(Done)
      else
        var aid := s.latest[Payment(n)];
        var row := s.approvals[aid];
        Go(if row.status == Approved && !e.expired then StartPreparing(n, its, aid, row) else Done)
    case StartPreparing(n, its, aid, row) =>
      PaymentStep(n, its, P.CredentialPreparing, Prepare(n, P.CredentialPreparing, aid, row))
    case Prepare(n, its, aid, row) =>
      Go(if e.check == Allowed then FinishPreparing(n, its, aid, row)
         else StorePayment(n, its, [P.ProviderUnavailable]))
    case FinishPreparing(n, its, aid, row) =>
      PaymentStep(n, its, P.ReadyToExecute, ClaimPayment(n, P.ReadyToExecute, aid, row))
    case ClaimPayment(n, its, aid, row) => ClaimStep(s, aid, EnterProcessing(n, its, aid, row))
    case EnterProcessing(n, its, aid, row) =>
      PaymentStep(n, its, P.Processing, CallProvider(n, P.Processing, aid, row))
    case CallProvider(n, its, aid, row) =>
      Charged(StorePayment(n, its, [e.paymentOutcome]), Charge(aid, row.amount))
    case StorePayment(n, its, after) =>
      if after == [] then Go(Done) else PaymentStep(n, its, after[0], StorePayment(n, after[0], after[1..]))
    case _ => Go(Done)
  }

  /** ApprovalService.Approve, Reject and Reapprove. */
  function DecisionEffect(s: Sys, c: Caller, e: Env): Effect {
    match c
    case LoadDecided(aid, verdict) =>
      if aid !in s.approvals then Go(Done)
      else
        var row := s.approvals[aid];
        var open := match verdict
                    case ApproveIt => row.status == Pending && !e.expired
                    case RejectIt => row.status == Pending || row.status == ReapprovalRequired
                    case ReapproveIt => row.status == ReapprovalRequired;
        Go(if open then WriteDecision(aid, if verdict == ReapproveIt then row.(amount := e.amount) else row, verdict)
           else Done)
    case WriteDecision(aid, row, verdict) =>
      var after := LoadParent(row.parent, verdict);
      if verdict == RejectIt then PutRow(after, aid, row.(status := Rejected))
      else PutGrant(after, aid, row.(status := Approved))
    case LoadParent(Purchase(n), verdict) =>
      Go(if n !in s.intents then Done
         else StoreIntent(n, s.intents[n], [if verdict == RejectIt then I.Cancelled else I.Approved]))
    case LoadParent(Payment(n), verdict) =>
      Go(if n !in s.payments || verdict == ReapproveIt then Done
         else StorePayment(n, s.payments[n], [if verdict == RejectIt then P.Cancelled else P.Authorized]))
    case _ => Go(Done)
  }

  predicate Decides(c: Caller) {
    c.LoadDecided? || c.WriteDecision? || c.LoadParent?
  }

  predicate Pays(c: Caller) {
    || c.LoadRevoked? || c.LoadPayment? || c.LoadPaymentApproval? || c.StartPreparing? || c.Prepare?
    || c.FinishPreparing? || c.ClaimPayment? || c.EnterProcessing? || c.CallProvider? || c.StorePayment?
  }

  /** One step of a caller, or its end. */
  function StepEffect(tolerance: int, s: Sys, c: Caller, e: Env): Effect {
    if e.fails then Go(Done)
    else if Decides(c) then DecisionEffect(s, c, e)
    else if Pays(c) then PaymentEffect(s, c, e)
    else PurchaseEffect(tolerance, s, c, e)
  }

  function Apply(s: Sys, i: nat, f: Effect): Sys
    requires i < |s.callers|
  {
    var t := s.(callers := s.callers[i := f.to]);
    match f
    case Go(_) => t
    case PutRow(_, aid, row) => t.(approvals := s.approvals[aid := row])
    case PutGrant(_, aid, row) =>
      t.(approvals := s.approvals[aid := row], grants := s.grants + [Grant(aid, row.amount)])
    case Insert(_, aid, row) =>
      t.(approvals := s.approvals[aid := row], latest := s.latest[row.parent := aid],
         grants := if row.status == Approved then s.grants + [Grant(aid, row.amount)] else s.grants)
    case Won(_, aid) =>
      t.(approvals := if aid in s.approvals then s.approvals[aid := s.approvals[aid].(status := Consumed)]
                      else s.approvals,
         wins := s.wins + [aid])
    case Charged(_, charge) => t.(charges := s.charges + [charge])
    case PutIntent(_, n, st) => t.(intents := s.intents[n := st])
    case PutPayment(_, n, st) => t.(payments := s.payments[n := st])
  }

  function Next(tolerance: int, s: Sys, ev: Event): Sys {
    match ev
    case Move(i, e) => if i < |s.callers| then Apply(s, i, StepEffect(tolerance, s, s.callers[i], e)) else s
    case OtherIntentWrite(n, st) => s.(intents := s.intents[n := st])
    case OtherPaymentWrite(n, st) => s.(payments := s.payments[n := st])
  }

  function Run(tolerance: int, s: Sys, events: seq<Event>): Sys {
    if events == [] then s
    else Next(tolerance, Run(tolerance, s, events[..|events| - 1]), events[|events| - 1])
  }

  /** No approval exists yet, and every caller is at the start of its call. */
  ghost predicate Initial(s: Sys) {
    && s.approvals == map[] && s.latest == map[] && s.grants == [] && s.wins == [] && s.charges == []
    && forall i | 0 <= i < |s.callers| ::
         var c := s.callers[i];
         || c.Done? || c.Create? || c.LoadCancelled? || c.LoadRevoked? || c.LoadIntent? || c.LoadPayment?
         || c.LoadDecided?
  }

  // ----- counting

  function GrantsOf(g: seq<Grant>, a: nat): nat {
    if g == [] then 0 else GrantsOf(g[..|g| - 1], a) + if g[|g| - 1].approval == a then 1 else 0
  }

  function WinsOf(w: seq<nat>, a: nat): nat {
    if w == [] then 0 else WinsOf(w[..|w| - 1], a) + if w[|w| - 1] == a then 1 else 0
  }

  function ChargesOf(c: seq<Charge>, a: nat): nat {
    if c == [] then 0 else ChargesOf(c[..|c| - 1], a) + if c[|c| - 1].approval == a then 1 else 0
  }

  function ClaimOf(c: Caller): Option<nat> {
    if c.EnterExecuting? || c.CallConnector? || c.EnterProcessing? || c.CallProvider? then Some(c.aid) else None
  }

  /** A caller that has won a claim on `a` and not yet used it. */
  predicate HoldsClaim(c: Caller, a: nat) {
    ClaimOf(c) == Some(a)
  }

  function ClaimsHeld(callers: seq<Caller>, a: nat): nat {
    if callers == [] then 0
    else ClaimsHeld(callers[..|callers| - 1], a) + if HoldsClaim(callers[|callers| - 1], a) then 1 else 0
  }

  lemma {:induction false} ClaimsAfter(callers: seq<Caller>, i: nat, c: Caller, a: nat)
    requires i < |callers|
    ensures ClaimsHeld(callers[i := c], a) + (if HoldsClaim(callers[i], a) then 1 else 0)
            == ClaimsHeld(callers, a) + if HoldsClaim(c, a) then 1 else 0
  {
    var last := |callers| - 1;
    if i == last {
      assert callers[i := c][..last] == callers[..last];
    } else {
      assert callers[i := c][..last] == callers[..last][i := c];
      ClaimsAfter(callers[..last], i, c, a);
    }
  }

  // ----- the invariant

  function Open(s: Sys, a: nat): nat {
    if a in s.approvals && s.approvals[a].status == Approved then 1 else 0
  }

  ghost predicate Counted(s: Sys, a: nat) {
    && WinsOf(s.wins, a) + Open(s, a) <= GrantsOf(s.grants, a)
    && ChargesOf(s.charges, a) + ClaimsHeld(s.callers, a) <= WinsOf(s.wins, a)
  }

  /** A row seen as APPROVED carries an amount that some granting write of that approval stored. */
  ghost predicate Backed(g: seq<Grant>, aid: nat, row: Row) {
    row.status == Approved ==> Grant(aid, row.amount) in g
  }

  ghost predicate CallerBacked(tolerance: int, g: seq<Grant>, c: Caller) {
    && ((c.RefreshAndCheck? || c.FlagApproval? || c.Claim? || c.EnterExecuting? || c.CallConnector?
         || c.StartPreparing? || c.Prepare? || c.FinishPreparing? || c.ClaimPayment? || c.EnterProcessing?
         || c.CallProvider?) ==> c.row.status == Approved && Backed(g, c.aid, c.row))
    && ((c.Claim? || c.EnterExecuting? || c.CallConnector?) ==> Within(c.verified, c.row.amount, tolerance))
  }

  ghost predicate ChargeBacked(tolerance: int, g: seq<Grant>, c: Charge) {
    exists k | 0 <= k < |g| :: g[k].approval == c.approval && Within(c.verified, g[k].amount, tolerance)
  }

  ghost predicate Terms(tolerance: int, s: Sys) {
    && (forall a | a in s.approvals :: Backed(s.grants, a, s.approvals[a]))
    && (forall i | 0 <= i < |s.callers| :: CallerBacked(tolerance, s.grants, s.callers[i]))
    && (forall k | 0 <= k < |s.charges| :: ChargeBacked(tolerance, s.grants, s.charges[k]))
  }

  lemma {:induction false} InitialCounted(s: Sys, a: nat)
    requires Initial(s)
    ensures Counted(s, a)
  {
    NoClaimsAtStart(s.callers, a);
  }

  lemma {:induction false} NoClaimsAtStart(callers: seq<Caller>, a: nat)
    requires forall i | 0 <= i < |callers| :: !HoldsClaim(callers[i], a)
    ensures ClaimsHeld(callers, a) == 0
  {
    if callers != [] {
      NoClaimsAtStart(callers[..|callers| - 1], a);
    }
  }

  /** What a caller may do to the counts: set APPROVED only by a granting write, win only an APPROVED
      approval, hold a claim only if it just won it or already held it, charge only a claim it gives up. */
  ghost predicate Lawful(s: Sys, c: Caller, f: Effect) {
    && (f.PutRow? ==> f.row.status != Approved)
    && (f.PutGrant? ==> f.row.status == Approved)
    && (f.Won? ==> f.aid in s.approvals && s.approvals[f.aid].status == Approved && ClaimOf(f.to) == Some(f.aid)
                   && ClaimOf(c) == None)
    && (f.Charged? ==> ClaimOf(c) == Some(f.charge.approval) && ClaimOf(f.to) == None)
    && (!f.Won? ==> ClaimOf(f.to) == None || ClaimOf(f.to) == ClaimOf(c))
  }

  lemma {:induction false} StepLawful(tolerance: int, s: Sys, c: Caller, e: Env)
    ensures Lawful(s, c, StepEffect(tolerance, s, c, e))
  {
  }

  lemma {:induction false} GrantAppended(g: seq<Grant>, x: Grant, a: nat)
    ensures GrantsOf(g + [x], a) == GrantsOf(g, a) + if x.approval == a then 1 else 0
  {
    assert (g + [x])[..|g|] == g;
  }

  lemma {:induction false} WinAppended(w: seq<nat>, y: nat, a: nat)
    ensures WinsOf(w + [y], a) == WinsOf(w, a) + if y == a then 1 else 0
  {
    assert (w + [y])[..|w|] == w;
  }

  lemma {:induction false} ChargeAppended(c: seq<Charge>, z: Charge, a: nat)
    ensures ChargesOf(c + [z], a) == ChargesOf(c, a) + if z.approval == a then 1 else 0
  {
    assert (c + [z])[..|c|] == c;
  }

  /** Wins plus one while APPROVED stay within the grants. */
  lemma {:induction false} ApplyGrants(s: Sys, i: nat, f: Effect, a: nat)
    requires i < |s.callers| && Lawful(s, s.callers[i], f)
    requires WinsOf(s.wins, a) + Open(s, a) <= GrantsOf(s.grants, a)
    ensures var t := Apply(s, i, f); WinsOf(t.wins, a) + Open(t, a) <= GrantsOf(t.grants, a)
  {
    if f.PutGrant? || f.Insert? {
      GrantAppended(s.grants, Grant(f.aid, f.row.amount), a);
    } else if f.Won? {
      WinAppended(s.wins, f.aid, a);
    }
  }

  /** Charges plus claims in hand stay within the wins. */
  lemma {:induction false} ApplyCharges(s: Sys, i: nat, f: Effect, a: nat)
    requires i < |s.callers| && Lawful(s, s.callers[i], f)
    requires ChargesOf(s.charges, a) + ClaimsHeld(s.callers, a) <= WinsOf(s.wins, a)
    ensures var t := Apply(s, i, f); ChargesOf(t.charges, a) + ClaimsHeld(t.callers, a) <= WinsOf(t.wins, a)
  {
    ClaimsAfter(s.callers, i, f.to, a);
    if f.Won? {
      WinAppended(s.wins, f.aid, a);
    } else if f.Charged? {
      ChargeAppended(s.charges, f.charge, a);
    }
  }

  lemma {:induction false} ApplyCounted(s: Sys, i: nat, f: Effect, a: nat)
    requires i < |s.callers| && Counted(s, a) && Lawful(s, s.callers[i], f)
    ensures Counted(Apply(s, i, f), a)
  {
    ApplyGrants(s, i, f, a);
    ApplyCharges(s, i, f, a);
  }

  lemma {:induction false} NextCounted(tolerance: int, s: Sys, ev: Event, a: nat)
    requires Counted(s, a)
    ensures Counted(Next(tolerance, s, ev), a)
  {
    if ev.Move? && ev.who < |s.callers| {
      var c := s.callers[ev.who];
      StepLawful(tolerance, s, c, ev.env);
      ApplyCounted(s, ev.who, StepEffect(tolerance, s, c, ev.env), a);
    }
  }

  lemma ChargeFromCopy(tolerance: int, g: seq<Grant>, c: Charge, row: Row)
    requires row.status == Approved && Backed(g, c.approval, row) && Within(c.verified, row.amount, tolerance)
    ensures ChargeBacked(tolerance, g, c)
  {
    var k :| 0 <= k < |g| && g[k] == Grant(c.approval, row.amount);
  }

  /** What a caller writes and carries on with is backed by the grants, given that its copies are. */
  ghost predicate Sound(tolerance: int, s: Sys, f: Effect) {
    && CallerBacked(tolerance, s.grants, f.to)
    && (f.PutRow? ==> f.row.status != Approved)
    && (f.Charged? ==> ChargeBacked(tolerance, s.grants, f.charge))
  }

  lemma {:induction false} StepSound(tolerance: int, s: Sys, c: Caller, e: Env)
    requires tolerance >= 0 && CallerBacked(tolerance, s.grants, c)
    requires forall a | a in s.approvals :: Backed(s.grants, a, s.approvals[a])
    ensures Sound(tolerance, s, StepEffect(tolerance, s, c, e))
  {
    if c.CallConnector? {
      ChargeFromCopy(tolerance, s.grants, Charge(c.aid, c.verified), c.row);
    } else if c.CallProvider? {
      ChargeFromCopy(tolerance, s.grants, Charge(c.aid, c.row.amount), c.row);
    }
  }

  lemma {:induction false} ApplyTerms(tolerance: int, s: Sys, i: nat, f: Effect)
    requires i < |s.callers| && Terms(tolerance, s) && Sound(tolerance, s, f)
    ensures Terms(tolerance, Apply(s, i, f))
  {
    var t := Apply(s, i, f);
    assert forall g | g in s.grants :: g in t.grants;
    forall c | ChargeBacked(tolerance, s.grants, c)
      ensures ChargeBacked(tolerance, t.grants, c)
    {
      var k :| 0 <= k < |s.grants| && s.grants[k].approval == c.approval
               && Within(c.verified, s.grants[k].amount, tolerance);
      assert t.grants[k] == s.grants[k];
    }
  }

  lemma {:induction false} NextTerms(tolerance: int, s: Sys, ev: Event)
    requires Terms(tolerance, s) && tolerance >= 0
    ensures Terms(tolerance, Next(tolerance, s, ev))
  {
    if ev.Move? && ev.who < |s.callers| {
      var c := s.callers[ev.who];
      StepSound(tolerance, s, c, ev.env);
      ApplyTerms(tolerance, s, ev.who, StepEffect(tolerance, s, c, ev.env));
    }
  }

  lemma {:induction false} RunCounted(tolerance: int, s: Sys, events: seq<Event>, a: nat)
    requires Counted(s, a)
    ensures Counted(Run(tolerance, s, events), a)
  {
    if events != [] {
      RunCounted(tolerance, s, events[..|events| - 1], a);
      NextCounted(tolerance, Run(tolerance, s, events[..|events| - 1]), events[|events| - 1], a);
    }
  }

  lemma {:induction false} RunTerms(tolerance: int, s: Sys, events: seq<Event>)
    requires Terms(tolerance, s) && tolerance >= 0
    ensures Terms(tolerance, Run(tolerance, s, events))
  {
    if events != [] {
      RunTerms(tolerance, s, events[..|events| - 1]);
      NextTerms(tolerance, Run(tolerance, s, events[..|events| - 1]), events[|events| - 1]);
    }
  }

  /** In every interleaving: charges never exceed claims won, and claims won, plus one while the approval
      stands APPROVED, never exceed the writes that set it APPROVED. */
  lemma {:induction false} ChargesNeverExceedGrants(tolerance: int, s: Sys, events: seq<Event>, a: nat)
    requires Initial(s)
    ensures var t := Run(tolerance, s, events);
            && ChargesOf(t.charges, a) <= WinsOf(t.wins, a)
            && WinsOf(t.wins, a) + Open(t, a) <= GrantsOf(t.grants, a)
            && (GrantsOf(t.grants, a) <= 1 ==> ChargesOf(t.charges, a) <= 1)
  {
    InitialCounted(s, a);
    RunCounted(tolerance, s, events, a);
  }

  // ----- how many callers can grant at all

  /** A caller that has yet to set `a` to APPROVED, or may find that it cannot. */
  predicate CanGrant(c: Caller, a: nat) {
    || (c.Create? && c.aid == a && c.row.status == Approved)
    || ((c.LoadDecided? || c.WriteDecision?) && c.aid == a && c.verdict != RejectIt)
  }

  function Granters(callers: seq<Caller>, a: nat): nat {
    if callers == [] then 0
    else Granters(callers[..|callers| - 1], a) + if CanGrant(callers[|callers| - 1], a) then 1 else 0
  }

  lemma {:induction false} GrantersAfter(callers: seq<Caller>, i: nat, c: Caller, a: nat)
    requires i < |callers|
    ensures Granters(callers[i := c], a) + (if CanGrant(callers[i], a) then 1 else 0)
            == Granters(callers, a) + if CanGrant(c, a) then 1 else 0
  {
    var last := |callers| - 1;
    if i == last {
      assert callers[i := c][..last] == callers[..last];
    } else {
      assert callers[i := c][..last] == callers[..last][i := c];
      GrantersAfter(callers[..last], i, c, a);
    }
  }

  /** Only a caller that could grant grants, and then it cannot grant again; and nobody becomes able to. */
  lemma {:induction false} GrantingIsUsedUp(tolerance: int, s: Sys, c: Caller, e: Env, a: nat)
    ensures var f := StepEffect(tolerance, s, c, e);
            && (CanGrant(f.to, a) ==> CanGrant(c, a))
            && ((f.PutGrant? || (f.Insert? && f.row.status == Approved)) && f.aid == a ==>
                  CanGrant(c, a) && !CanGrant(f.to, a))
  {
  }

  lemma {:induction false} NextGranters(tolerance: int, s: Sys, ev: Event, a: nat)
    ensures var t := Next(tolerance, s, ev);
            GrantsOf(t.grants, a) + Granters(t.callers, a) <= GrantsOf(s.grants, a) + Granters(s.callers, a)
  {
    if ev.Move? && ev.who < |s.callers| {
      var c := s.callers[ev.who];
      var f := StepEffect(tolerance, s, c, ev.env);
      GrantingIsUsedUp(tolerance, s, c, ev.env, a);
      GrantersAfter(s.callers, ev.who, f.to, a);
      if f.PutGrant? || f.Insert? {
        GrantAppended(s.grants, Grant(f.aid, f.row.amount), a);
      }
    }
  }

  lemma {:induction false} RunGranters(tolerance: int, s: Sys, events: seq<Event>, a: nat)
    ensures var t := Run(tolerance, s, events);
            GrantsOf(t.grants, a) + Granters(t.callers, a) <= GrantsOf(s.grants, a) + Granters(s.callers, a)
  {
    if events != [] {
      RunGranters(tolerance, s, events[..|events| - 1], a);
      NextGranters(tolerance, Run(tolerance, s, events[..|events| - 1]), events[|events| - 1], a);
    }
  }

  /** In every interleaving an approval is charged at most as often as there were calls that could grant it:
      creations as APPROVED, approvals and reapprovals. So one such call gives at most one charge. */
  lemma {:induction false} ChargesNeverExceedGranters(tolerance: int, s: Sys, events: seq<Event>, a: nat)
    requires Initial(s)
    ensures var t := Run(tolerance, s, events);
            && ChargesOf(t.charges, a) <= GrantsOf(t.grants, a) <= Granters(s.callers, a)
            && (Granters(s.callers, a) <= 1 ==> ChargesOf(t.charges, a) <= 1)
  {
    ChargesNeverExceedGrants(tolerance, s, events, a);
    RunGranters(tolerance, s, events, a);
  }

  /** In every interleaving: each charge verified an amount within tolerance of one that was granted for
      that very approval, however stale the copies in between. */
  lemma {:induction false} EveryChargeWasGranted(tolerance: int, s: Sys, events: seq<Event>)
    requires Initial(s) && tolerance >= 0
    ensures var t := Run(tolerance, s, events);
            forall k | 0 <= k < |t.charges| :: ChargeBacked(tolerance, t.grants, t.charges[k])
  {
    RunTerms(tolerance, s, events);
  }
}
