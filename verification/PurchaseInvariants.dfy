/** What every serial run of the purchase flow keeps.

    Everything the stores hold about one intent is gathered into its Case. Each operation touches the case of
    one intent only, so each proof is about one case, whatever the rest of the world holds. */
module PurchaseInvariants {
  import opened AuditTrails
  import opened Results
  import opened Money
  import opened Approvals
  import opened Quotes
  import opened PurchaseFlow
  import S = PurchaseStates
  import P = Policy

  // ----- the case of one intent

  function ReplayOf(log: seq<Event<S.State>>, n: nat): Trail<S.State> {
    Replay(S.CanTransition, S.Draft, log, n)
  }

  /** Some event moved the intent to EXECUTING. */
  predicate Entered(log: seq<Event<S.State>>, n: nat) {
    log != [] &&
    (Entered(log[..|log| - 1], n) || (log[|log| - 1].intent == n && log[|log| - 1].next == Some(S.Executing)))
  }

  function OrdersOf(orders: seq<Order>, n: nat): seq<Order> {
    if orders == [] then []
    else
      var before, o := OrdersOf(orders[..|orders| - 1], n), orders[|orders| - 1];
      if o.intent == n then before + [o] else before
  }

  datatype Case = Case(
    intent: Option<Intent>,
    aid: Option<nat>,
    approval: Option<Approval>,
    terms: Option<Terms>,
    trail: Trail<S.State>,
    entered: bool,
    orders: seq<Order>)

  function CaseOf(w: World, n: nat): Case {
    var aid := Lookup(w.deals.latest, Some(n));
    Case(Lookup(w.deals.intents, Some(n)), aid, Lookup(w.deals.approvals, aid), Lookup(w.deals.terms, aid),
         ReplayOf(w.record.audit, n), Entered(w.record.audit, n), OrdersOf(w.record.orders, n))
  }

  // ----- the invariant

  predicate Early(s: S.State) {
    s == S.Draft || s == S.Discovering || s == S.Quoted || s == S.PolicyCheck
  }

  /** An approval's row says exactly what was put forward, and was granted if its status needs that. */
  predicate Bound(a: Approval, t: Terms) {
    && a.amount == t.amount
    && a.itemsHash == CanonicalDigest(a.merchant, t.items, t.amount.currency, a.alias)
    && ((a.status == Approved || a.status == Consumed || a.status == ReapprovalRequired) ==> t.granted)
  }

  predicate Close(a: Amount, b: Amount, tolerance: int) {
    a.currency == b.currency && -tolerance <= a.minorUnits - b.minorUnits <= tolerance
  }

  /** An order charges what was granted, within tolerance, for exactly the granted items. */
  predicate Honours(o: Order, a: Approval, t: Terms, tolerance: int) {
    && t.granted && Close(o.total, t.amount, tolerance)
    && o.merchant == a.merchant
    && CanonicalDigest(o.merchant, o.items, o.total.currency, a.alias)
       == CanonicalDigest(a.merchant, t.items, t.amount.currency, a.alias)
  }

  predicate ApprovalIs(c: Case, status: Status) {
    c.approval.Some? && c.approval.value.status == status
  }

  ghost predicate OrderOk(cfg: Config, c: Case, o: Order) {
    && ApprovalIs(c, Consumed) && c.aid == Some(o.approval) && c.terms.Some?
    && (cfg.remotes == {} ==> Honours(o, c.approval.value, c.terms.value, cfg.tolerance))
  }

  ghost predicate CaseOk(cfg: Config, n: nat, c: Case) {
    if c.intent == None then
      c.aid == None && c.trail == Silent && !c.entered && c.orders == []
    else
      var s := c.intent.value.status;
      && c.trail == At(s)
      && (Early(s) ==> c.aid == None)
      && (c.aid.Some? ==> c.approval.Some? && c.terms.Some? && Bound(c.approval.value, c.terms.value))
      && (s == S.Approved ==> ApprovalIs(c, Approved))
      && (s == S.ReapprovalRequired ==> ApprovalIs(c, ReapprovalRequired))
      && (s == S.AuthenticationRequired ==> cfg.remotes != {} && ApprovalIs(c, Consumed))
      && (ApprovalIs(c, Consumed) ==> c.entered)
      && |c.orders| == (if s == S.Succeeded then 1 else 0)
      && (c.orders != [] ==> OrderOk(cfg, c, c.orders[0]))
  }

  /** Ids are fresh, and an intent's latest approval is its only one. */
  ghost predicate Ids(w: World) {
    && (forall n | n in w.deals.intents :: n < w.market.next)
    && (forall a | a in w.deals.approvals :: a < w.market.next)
    && (forall a | a in w.deals.approvals ::
          w.deals.approvals[a].parent in w.deals.latest && w.deals.latest[w.deals.approvals[a].parent] == a)
    && (forall n | n in w.deals.latest ::
          n in w.deals.intents && w.deals.latest[n] in w.deals.approvals
          && w.deals.approvals[w.deals.latest[n]].parent == n)
  }

  ghost predicate Good(w: World, n: nat) {
    CaseOk(w.env.cfg, n, CaseOf(w, n))
  }

  ghost predicate Inv(w: World) {
    Ids(w) && forall n: nat :: Good(w, n)
  }

  // ----- what each store write does to a case

  lemma {:induction false} Appended(log: seq<Event<S.State>>, e: Event<S.State>, m: nat)
    ensures e.intent != m ==> ReplayOf(log + [e], m) == ReplayOf(log, m) && Entered(log + [e], m) == Entered(log, m)
    ensures e.intent == m ==> ReplayOf(log + [e], m) == Extend(S.CanTransition, S.Draft, ReplayOf(log, m), e)
    ensures e.intent == m ==> Entered(log + [e], m) == (Entered(log, m) || e.next == Some(S.Executing))
  {
    ReplayAppended(S.CanTransition, S.Draft, log, e, m);
    assert (log + [e])[..|log|] == log;
  }

  function CaseMoved(c: Case, n: nat, to: S.State): Case
    requires c.intent.Some?
  {
    var e := Event(n, Some(c.intent.value.status), Some(to));
    c.(intent := Some(c.intent.value.(status := to)), trail := Extend(S.CanTransition, S.Draft, c.trail, e),
       entered := c.entered || to == S.Executing)
  }

  lemma {:induction false} MovedOwn(w: World, n: nat, to: S.State)
    requires n in w.deals.intents
    ensures CaseOf(Moved(w, n, to), n) == CaseMoved(CaseOf(w, n), n, to)
  {
    Appended(w.record.audit, Event(n, Some(w.deals.intents[n].status), Some(to)), n);
  }

  lemma {:induction false} MovedOther(w: World, n: nat, to: S.State, m: nat)
    requires n in w.deals.intents && m != n
    ensures CaseOf(Moved(w, n, to), m) == CaseOf(w, m)
  {
    Appended(w.record.audit, Event(n, Some(w.deals.intents[n].status), Some(to)), m);
  }

  lemma {:induction false} MovedCase(w: World, n: nat, to: S.State, m: nat)
    requires n in w.deals.intents
    ensures m == n ==> CaseOf(Moved(w, n, to), m) == CaseMoved(CaseOf(w, n), n, to)
    ensures m != n ==> CaseOf(Moved(w, n, to), m) == CaseOf(w, m)
  {
    if m == n {
      MovedOwn(w, n, to);
    } else {
      MovedOther(w, n, to, m);
    }
  }

  lemma {:induction false} NotedCase(w: World, n: nat, m: nat)
    ensures CaseOf(Noted(w, n), m) == CaseOf(w, m)
  {
    Appended(w.record.audit, Event(n, None, None), m);
  }

  lemma {:induction false} RecordedCase(w: World, o: Order, m: nat)
    ensures m == o.intent ==> CaseOf(Recorded(w, o), m) == CaseOf(w, m).(orders := CaseOf(w, m).orders + [o])
    ensures m != o.intent ==> CaseOf(Recorded(w, o), m) == CaseOf(w, m)
  {
    assert (w.record.orders + [o])[..|w.record.orders|] == w.record.orders;
  }

  lemma {:induction false} SaveOrNoteCase(w: World, n: nat, q: Result<Quote, Error>, m: nat)
    ensures CaseOf(SaveOrNote(w, n, q).0, m) == CaseOf(w, m)
  {
    if q.Err? {
      NotedCase(w, n, m);
    }
  }

  lemma {:induction false} DiscoverOneCase(w: World, n: nat, c: Candidate, m: nat)
    requires n in w.deals.intents
    ensures CaseOf(DiscoverOne(w, n, c).0, m) == CaseOf(w, m)
  {
    if c.FromShop? {
      var (shop, q) := DiscoverShop(w.market.shop, w.market.next, w.deals.intents[n].items, c.matches);
      SaveOrNoteCase(Dealt(w, shop), n, q, m);
    } else {
      SaveOrNoteCase(w, n, RemoteQuote(w.env.cfg, c.name, c.quote), m);
    }
  }

  lemma {:induction false} DiscoverAllCase(w: World, n: nat, cs: seq<Candidate>, m: nat)
    requires n in w.deals.intents
    ensures CaseOf(DiscoverAll(w, n, cs).0, m) == CaseOf(w, m)
  {
    if cs != [] {
      var init := cs[..|cs| - 1];
      DiscoverAllCase(w, n, init, m);
      DiscoverOneCase(DiscoverAll(w, n, init).0, n, cs[|cs| - 1], m);
    }
  }

  function CaseApproved(c: Case, aid: nat, a: Approval, t: Terms): Case {
    c.(aid := Some(aid), approval := Some(a), terms := Some(t))
  }

  lemma {:induction false} NewApprovalCase(w: World, n: nat, quoteId: nat, q: Quote, status: Status, m: nat)
    requires n in w.deals.intents && Ids(w)
    ensures m != n ==> CaseOf(NewApproval(w, n, quoteId, q, status), m) == CaseOf(w, m)
    ensures m == n ==> CaseOf(NewApproval(w, n, quoteId, q, status), m)
                       == CaseApproved(CaseOf(w, n), w.market.next, NewRow(w, n, quoteId, q, status),
                                       Terms(q.finalPayable, q.items, status == Approved))
  {
  }

  // ----- what a good case may become

  /** Any legal move keeps a case good, if its approval fits the state moved to. */
  lemma {:induction false} CaseMovedOk(cfg: Config, n: nat, c: Case, to: S.State)
    requires CaseOk(cfg, n, c) && c.intent.Some? && S.CanTransition(c.intent.value.status, to)
    requires to != S.Succeeded && to != S.Draft
    requires Early(to) ==> c.aid == None
    requires to == S.Approved ==> ApprovalIs(c, Approved)
    requires to == S.ReapprovalRequired ==> ApprovalIs(c, ReapprovalRequired)
    requires to == S.AuthenticationRequired ==> cfg.remotes != {} && ApprovalIs(c, Consumed)
    ensures CaseOk(cfg, n, CaseMoved(c, n, to))
  {
    assert c.intent.value.status != S.Succeeded;
  }

  lemma {:induction false} MoveKeeps(w: World, n: nat, to: S.State)
    requires n in w.deals.intents && S.CanTransition(w.deals.intents[n].status, to)
             && CaseOk(w.env.cfg, n, CaseOf(w, n))
    requires to != S.Succeeded && to != S.Draft
    requires Early(to) ==> n !in w.deals.latest
    requires to == S.Approved ==> ApprovalIs(CaseOf(w, n), Approved)
    requires to == S.ReapprovalRequired ==> ApprovalIs(CaseOf(w, n), ReapprovalRequired)
    requires to == S.AuthenticationRequired ==> w.env.cfg.remotes != {} && ApprovalIs(CaseOf(w, n), Consumed)
    ensures CaseOk(w.env.cfg, n, CaseOf(Moved(w, n, to), n))
  {
    MovedOwn(w, n, to);
    CaseMovedOk(w.env.cfg, n, CaseOf(w, n), to);
  }

  // ----- each operation keeps the case it is about

  lemma {:induction false} CreatedCase(w: World, key: string, pi: Intent)
    ensures var n := w.market.next;
            CaseOf(Created(w, key, pi), n)
            == CaseOf(w, n).(intent := Some(pi),
                             trail := Extend(S.CanTransition, S.Draft, CaseOf(w, n).trail,
                                             Event(n, None, Some(S.Draft))))
  {
    Appended(w.record.audit, Event(w.market.next, None, Some(S.Draft)), w.market.next);
  }

  lemma {:induction false} CreatedKeeps(w: World, key: string, pi: Intent)
    requires Good(w, w.market.next) && w.market.next !in w.deals.intents && pi.status == S.Draft
    ensures Good(Created(w, key, pi), w.market.next)
  {
    CreatedCase(w, key, pi);
  }

  lemma {:induction false} CreateShape(w: World, key: string, agent: string, user: string, items: seq<Wanted>,
                                       c: Constraints)
    ensures var t := CreateIntent(w, key, agent, user, items, c).0;
            t == w || t == Created(w, key, Intent(user, S.Draft, items, c, None))
  {
  }

  lemma {:induction false} CreateKeeps(w: World, key: string, agent: string, user: string, items: seq<Wanted>,
                                       c: Constraints)
    requires Good(w, w.market.next) && w.market.next !in w.deals.intents
    ensures Good(CreateIntent(w, key, agent, user, items, c).0, w.market.next)
  {
    CreateShape(w, key, agent, user, items, c);
    CreatedKeeps(w, key, Intent(user, S.Draft, items, c, None));
  }

  lemma {:induction false} CancelKeeps(w: World, agent: string, n: nat)
    requires Good(w, n)
    ensures Good(CancelIntent(w, agent, n).0, n)
  {
    var pi := Owned(w, agent, n, ShoppingExecute);
    if pi.Ok? && S.CanTransition(pi.value.status, S.Cancelled) {
      MoveKeeps(w, n, S.Cancelled);
    }
  }

  lemma {:induction false} FoundKeeps(w: World, n: nat, cs: seq<Candidate>, to: S.State)
    requires Good(w, n) && n in w.deals.intents && w.deals.intents[n].status == S.Discovering && n !in w.deals.latest
    requires to == S.Quoted || to == S.Failed
    ensures Good(Moved(DiscoverAll(w, n, cs).0, n, to), n)
  {
    DiscoverAllCase(w, n, cs, n);
    DiscoverAllSettings(w, n, cs);
    MoveKeeps(DiscoverAll(w, n, cs).0, n, to);
  }

  lemma {:induction false} StartedKeeps(w: World, n: nat)
    requires Good(w, n) && n in w.deals.intents && S.CanTransition(w.deals.intents[n].status, S.Discovering)
    ensures Good(Moved(w, n, S.Discovering), n) && n !in w.deals.latest
  {
    assert CaseOf(w, n).aid == None;
    MoveKeeps(w, n, S.Discovering);
  }

  lemma {:induction false} DiscoverKeeps(w: World, agent: string, n: nat, cs: seq<Candidate>)
    requires Good(w, n)
    ensures Good(Discover(w, agent, n, cs).0, n)
  {
    var pi := Owned(w, agent, n, ShoppingRead);
    if pi.Ok? && S.CanTransition(pi.value.status, S.Discovering) {
      var t := Moved(w, n, S.Discovering);
      StartedKeeps(w, n);
      FoundKeeps(t, n, cs, if DiscoverAll(t, n, cs).1 then S.Quoted else S.Failed);
    }
  }

  lemma {:induction false} DiscoverAllSettings(w: World, n: nat, cs: seq<Candidate>)
    requires n in w.deals.intents
    ensures var u := DiscoverAll(w, n, cs).0; u.env == w.env && u.deals == w.deals && u.record.orders == w.record.orders
                                                && u.record.outcomes == w.record.outcomes
  {
    if cs != [] {
      DiscoverAllSettings(w, n, cs[..|cs| - 1]);
    }
  }

  lemma {:induction false} SelectKeeps(w: World, agent: string, n: nat, q: nat)
    requires Good(w, n)
    ensures Good(SelectQuote(w, agent, n, q).0, n)
  {
  }

  /** A first approval puts the quote's own terms forward. */
  lemma {:induction false} NewApprovalKeeps(w: World, n: nat, quoteId: nat, q: Quote, status: Status, to: S.State)
    requires n in w.deals.intents && Ids(w) && Good(w, n) && w.deals.intents[n].status == S.PolicyCheck
    requires (status == Pending && to == S.ApprovalRequired) || (status == Approved && to == S.Approved)
    ensures Good(Moved(NewApproval(w, n, quoteId, q, status), n, to), n)
  {
    NewApprovalCase(w, n, quoteId, q, status, n);
    MovedCase(NewApproval(w, n, quoteId, q, status), n, to, n);
  }

  lemma {:induction false} DecideKeeps(w: World, n: nat, quoteId: nat, q: Quote, d: P.Decision)
    requires n in w.deals.intents && Ids(w) && Good(w, n) && w.deals.intents[n].status == S.PolicyCheck
    ensures Good(Decided(w, n, quoteId, q, d), n)
  {
    match d
    case Deny => MovedCase(w, n, S.PolicyRejected, n);
    case RequireApproval => NewApprovalKeeps(w, n, quoteId, q, Pending, S.ApprovalRequired);
    case Allow => NewApprovalKeeps(w, n, quoteId, q, Approved, S.Approved);
  }

  lemma {:induction false} ConcludeKeeps(w: World, n: nat, quoteId: nat, q: Quote, d: Result<P.PolicyDecision, Error>)
    requires n in w.deals.intents && Ids(w) && Good(w, n) && w.deals.intents[n].status == S.PolicyCheck
    ensures Good(Concluded(w, n, quoteId, q, d), n)
  {
    if d.Ok? {
      NotedCase(w, n, n);
      DecideKeeps(Noted(w, n), n, quoteId, q, d.value.decision);
    }
  }

  lemma {:induction false} MovedIds(w: World, n: nat, to: S.State)
    requires Ids(w) && n in w.deals.intents
    ensures Ids(Moved(w, n, to))
  {
  }

  lemma {:induction false} CheckingKeeps(w: World, n: nat)
    requires Good(w, n) && Ids(w) && n in w.deals.intents && S.CanTransition(w.deals.intents[n].status, S.PolicyCheck)
    ensures Good(Moved(w, n, S.PolicyCheck), n) && Ids(Moved(w, n, S.PolicyCheck))
  {
    assert CaseOf(w, n).aid == None;
    MoveKeeps(w, n, S.PolicyCheck);
    MovedIds(w, n, S.PolicyCheck);
  }

  lemma {:induction false} EvaluateKeeps(w: World, agent: string, n: nat)
    requires Good(w, n) && Ids(w)
    ensures Good(EvaluateAndTransition(w, agent, n).0, n)
  {
    var pi := Owned(w, agent, n, ShoppingExecute);
    if pi.Ok? && pi.value.selected.Some? && pi.value.selected.value in w.market.quotes
       && S.CanTransition(pi.value.status, S.PolicyCheck) {
      CheckingKeeps(w, n);
      var q := w.market.quotes[pi.value.selected.value];
      ConcludeKeeps(Moved(w, n, S.PolicyCheck), n, pi.value.selected.value, q, Evaluate(w, pi.value, q));
    }
  }

  // ----- approvals

  lemma {:induction false} RowCase(w: World, a: nat, row: Approval, m: nat)
    requires Ids(w) && a in w.deals.approvals
    ensures m == w.deals.approvals[a].parent ==>
              CaseOf(PutApproval(w, a, row), m) == CaseOf(w, m).(approval := Some(row))
    ensures m != w.deals.approvals[a].parent ==> CaseOf(PutApproval(w, a, row), m) == CaseOf(w, m)
  {
  }

  lemma {:induction false} TermsCase(w: World, a: nat, row: Approval, t: Terms, m: nat)
    requires Ids(w) && a in w.deals.approvals
    ensures m == w.deals.approvals[a].parent ==>
              CaseOf(PutTerms(PutApproval(w, a, row), a, t), m)
                == CaseOf(w, m).(approval := Some(row), terms := Some(t))
    ensures m != w.deals.approvals[a].parent ==> CaseOf(PutTerms(PutApproval(w, a, row), a, t), m) == CaseOf(w, m)
  {
  }

  /** An approval being granted, whatever has become of its intent meanwhile. */
  lemma {:induction false} GrantedOk(cfg: Config, n: nat, c: Case, row: Approval, t: Terms)
    requires CaseOk(cfg, n, c) && c.intent.Some? && c.aid.Some?
    requires ApprovalIs(c, Pending) || ApprovalIs(c, ReapprovalRequired)
    requires row.status == Approved && t.granted && Bound(row, t)
    ensures var granted := c.(approval := Some(row), terms := Some(t));
            if S.CanTransition(c.intent.value.status, S.Approved) then CaseOk(cfg, n, CaseMoved(granted, n, S.Approved))
            else CaseOk(cfg, n, granted)
  {
  }

  lemma {:induction false} RejectedOk(cfg: Config, n: nat, c: Case, row: Approval)
    requires CaseOk(cfg, n, c) && c.intent.Some? && c.aid.Some?
    requires ApprovalIs(c, Pending) || ApprovalIs(c, ReapprovalRequired)
    requires row == c.approval.value.(status := Rejected)
    ensures var rejected := c.(approval := Some(row));
            if S.CanTransition(c.intent.value.status, S.Cancelled)
              then CaseOk(cfg, n, CaseMoved(rejected, n, S.Cancelled))
            else CaseOk(cfg, n, rejected)
  {
  }

  lemma {:induction false} MoveParentCase(w: World, n: nat, to: S.State)
    requires n in w.deals.intents
    ensures var t := MoveParent(w, n, to).0;
            if S.CanTransition(w.deals.intents[n].status, to) then CaseOf(t, n) == CaseMoved(CaseOf(w, n), n, to)
            else t == w
  {
    MovedCase(w, n, to, n);
  }

  lemma {:induction false} GrantKeeps(w: World, a: nat, row: Approval, t: Terms)
    requires Ids(w) && a in w.deals.approvals && Good(w, w.deals.approvals[a].parent)
    requires w.deals.approvals[a].status == Pending || w.deals.approvals[a].status == ReapprovalRequired
    requires row.status == Approved && t.granted && Bound(row, t)
    ensures var n := w.deals.approvals[a].parent;
            Good(MoveParent(PutTerms(PutApproval(w, a, row), a, t), n, S.Approved).0, n)
  {
    var n := w.deals.approvals[a].parent;
    TermsCase(w, a, row, t, n);
    GrantedOk(w.env.cfg, n, CaseOf(w, n), row, t);
    MoveParentCase(PutTerms(PutApproval(w, a, row), a, t), n, S.Approved);
  }

  lemma {:induction false} ApproveKeeps(w: World, user: string, a: nat)
    requires Ids(w) && a in w.deals.approvals && Good(w, w.deals.approvals[a].parent)
    ensures Good(Approve(w, user, a).0, w.deals.approvals[a].parent)
  {
    var row := w.deals.approvals[a];
    if row.user == user && row.status == Pending && !IsExpired(row, w.env.now.tick) {
      GrantKeeps(w, a, row.(status := Approved), Terms(row.amount, ItemsPutForward(w, a), true));
    }
  }

  lemma {:induction false} RejectKeeps(w: World, user: string, a: nat)
    requires Ids(w) && a in w.deals.approvals && Good(w, w.deals.approvals[a].parent)
    ensures Good(Reject(w, user, a).0, w.deals.approvals[a].parent)
  {
    var row := w.deals.approvals[a];
    var n := row.parent;
    if row.user == user && (row.status == Pending || row.status == ReapprovalRequired) {
      RowCase(w, a, row.(status := Rejected), n);
      RejectedOk(w.env.cfg, n, CaseOf(w, n), row.(status := Rejected));
      MoveParentCase(WithStatus(w, a, Rejected), n, S.Cancelled);
    }
  }

  lemma {:induction false} ReapproveKeeps(w: World, user: string, a: nat, remote: Result<Quote, Error>)
    requires Ids(w) && a in w.deals.approvals && Good(w, w.deals.approvals[a].parent)
    ensures Good(Reapprove(w, user, a, remote).0, w.deals.approvals[a].parent)
  {
    var row := w.deals.approvals[a];
    var q := RefreshQuote(w, row.quote, remote);
    if row.user == user && row.status == ReapprovalRequired && q.Ok? {
      GrantKeeps(w, a, Rebound(row, q.value), Terms(q.value.finalPayable, q.value.items, true));
    }
  }
}
