/** Who can touch what, and what a repeated execution does. */
module PurchaseAccess {
  import opened Results
  import opened PurchaseFlow
  import opened PurchaseInvariants
  import opened PurchaseFrames
  import opened PurchaseSafety
  import P = Policy

  /** Whatever an agent asks for, every other user's intents keep their status, approval, orders and audit trail;
      asking about one of them changes nothing at all. */
  lemma {:induction false} OtherUsersAreUntouched(w: World, agent: string, r: Request, m: nat)
    requires Inv(w) && agent in w.env.agents
    requires m in w.deals.intents && w.deals.intents[m].user != w.env.agents[agent].user
    ensures CaseOf(Asked(w, agent, r), m) == CaseOf(w, m)
    ensures Subject(w, r) == m ==> Asked(w, agent, r) == w
  {
    assert Good(w, Subject(w, r));
    if Subject(w, r) == m {
      ForeignIsIgnored(w, agent, r);
    } else {
      AskedBeside(w, agent, r, m);
    }
  }

  lemma {:induction false} ForeignIsIgnored(w: World, agent: string, r: Request)
    requires !r.Creating? && agent in w.env.agents
    requires r.intent in w.deals.intents && w.deals.intents[r.intent].user != w.env.agents[agent].user
    ensures Asked(w, agent, r) == w
  {
    assert forall p :: Owned(w, agent, r.intent, p).Err?;
  }

  // ----- what an agent can learn

  /** What a request is answered with, short of an error. */
  datatype Reply =
    | Id(id: nat)
    | Done
    | Verdict(decision: P.PolicyDecision)
    | Outcome(outcome: ExecuteOutcome)
    | Placed(order: Order)

  function Failing(e: Option<Error>): Result<Reply, Error> {
    if e.Some? then Err(e.value) else Ok(Done)
  }

  function OutcomeOf(r: Result<ExecuteOutcome, Error>): Result<Reply, Error> {
    if r.Err? then Err(r.error) else Ok(Outcome(r.value))
  }

  function ReplyTo(w: World, agent: string, r: Request): Result<Reply, Error> {
    match r
    case Creating(key, user, items, c) =>
      var n := CreateIntent(w, key, agent, user, items, c).1;
      if n.Err? then Err(n.error) else Ok(Id(n.value))
    case Discovering(n, cs) => Failing(Discover(w, agent, n, cs).1)
    case Selecting(n, q) => Failing(SelectQuote(w, agent, n, q).1)
    case Evaluating(n) =>
      var d := EvaluateAndTransition(w, agent, n).1;
      if d.Err? then Err(d.error) else Ok(Verdict(d.value))
    case Executing(key, n, e) => OutcomeOf(Execute(w, key, agent, n, e).1)
    case Authenticating(n, mo, ok, order, at) => OutcomeOf(CompleteAuthentication(w, agent, n, mo, ok, order, at).1)
    case Cancelling(n) => Failing(CancelIntent(w, agent, n).1)
    case CancellingOrder(n, answer) =>
      var o := CancelOrder(w, agent, n, answer).1;
      if o.Err? then Err(o.error) else Ok(Placed(o.value))
  }

  function PermissionFor(r: Request): Permission {
    match r
    case Creating(_, _, _, _) => CreateIntents
    case Discovering(_, _) => ShoppingRead
    case Selecting(_, _) => ShoppingRead
    case _ => ShoppingExecute
  }

  /** An execution of this intent has been answered under this key. */
  predicate IsReplay(w: World, r: Request) {
    r.Executing? && r.key != "" && (r.key, r.intent) in w.record.outcomes
  }

  /** About an intent that is not its user's, or does not exist, an agent gets the same error, which depends on its
      own permissions alone; with one exception, exactly when an execution of that intent has been answered under
      the key it names: then it gets that answer, because keys are looked up before ownership. */
  lemma {:induction false} ForeignReadsNothing(w: World, agent: string, r: Request)
    requires !r.Creating?
    requires agent !in w.env.agents || r.intent !in w.deals.intents
             || w.deals.intents[r.intent].user != w.env.agents[agent].user
    ensures var ok := Permitted(w, agent, PermissionFor(r));
            ReplyTo(w, agent, r)
            == if IsReplay(w, r) then Ok(Outcome(w.record.outcomes[(r.key, r.intent)]))
               else Err(if ok.Err? then ok.error else NotFound)
  {
    assert Owned(w, agent, r.intent, PermissionFor(r)).Err?;
  }

  /** Only the user an approval was made for can decide it. */
  lemma {:induction false} OnlyOwnersDecide(w: World, user: string, a: nat, d: PurchaseFlow.Decision)
    requires a in w.deals.approvals ==> w.deals.approvals[a].user != user
    ensures DecidedBy(w, user, a, d) == w
  {
  }

  // ----- idempotency

  /** A remembered answer is not forgotten, nor changed. */
  ghost predicate Remembers(w: World, t: World, k: (string, nat)) {
    k in w.record.outcomes ==> k in t.record.outcomes && t.record.outcomes[k] == w.record.outcomes[k]
  }

  lemma {:induction false} ExecuteRemembers(w: World, key: string, agent: string, n: nat, e: ExecuteEnv,
                                            k: (string, nat))
    requires Ids(w)
    ensures Remembers(w, Execute(w, key, agent, n, e).0, k)
  {
    ExecuteOnceNear(w, agent, n, e, 0);
  }

  lemma {:induction false} OrderedRemembers(w: World, agent: string, r: Request, k: (string, nat))
    requires Ids(w) && !IsShopping(r)
    ensures Remembers(w, Ordered(w, agent, r), k)
  {
    match r
    case Executing(key, n, e) => ExecuteRemembers(w, key, agent, n, e, k);
    case Authenticating(n, mo, ok, order, at) => AuthenticationNear(w, agent, n, mo, ok, order, at, 0);
    case Cancelling(n) => CancelNear(w, agent, n, 0);
    case CancellingOrder(n, answer) => CancelOrderNear(w, agent, n, answer, 0);
  }

  lemma {:induction false} AskedRemembers(w: World, agent: string, r: Request, k: (string, nat))
    requires Inv(w)
    ensures Remembers(w, Asked(w, agent, r), k)
  {
    assert Good(w, Subject(w, r));
    if IsShopping(r) {
      ShoppedNear(w, agent, r, 0);
    } else {
      OrderedRemembers(w, agent, r, k);
    }
  }

  lemma {:induction false} StepRemembers(w: World, op: Op, k: (string, nat))
    requires Inv(w)
    ensures Remembers(w, Step(w, op), k)
  {
    match op
    case Asks(agent, r) => AskedRemembers(w, agent, r, k);
    case Decides(user, a, d) => DecidedBeside(w, user, a, d, 0);
    case Happens(c) =>
  }

  lemma {:induction false} RunRemembers(w: World, ops: seq<Op>, k: (string, nat))
    requires Inv(w)
    ensures Remembers(w, Run(w, ops), k)
  {
    if ops != [] {
      RunRemembers(w, ops[..|ops| - 1], k);
      RunKeeps(w, ops[..|ops| - 1]);
      StepRemembers(Run(w, ops[..|ops| - 1]), ops[|ops| - 1], k);
    }
  }

  /** Once an execution has answered under a key, asking again under that key, whenever and with whatever the
      world would answer by then, gives the same answer and changes nothing. */
  lemma {:induction false} ExecutionReplays(w: World, key: string, agent: string, n: nat, e: ExecuteEnv,
                                            ops: seq<Op>, again: string, e': ExecuteEnv)
    requires Inv(w) && key != "" && Execute(w, key, agent, n, e).1.Ok?
    ensures var (t, r) := Execute(w, key, agent, n, e);
            var u := Run(t, ops);
            Execute(u, key, again, n, e') == (u, r)
  {
    var (t, r) := Execute(w, key, agent, n, e);
    StepKeeps(w, Asks(agent, Executing(key, n, e)));
    assert (key, n) in t.record.outcomes && t.record.outcomes[(key, n)] == r.value;
    RunRemembers(t, ops, (key, n));
  }
}
